/**
 * `Execution::schedule`: the backtracks it asks for, what it seeds a branch point with, whom the
 * path then lets run, and what the access of that thread leaves behind.
 */
module Scheduling {
  import opened Wrappers
  import opened PathModel
  import opened ExplorationPath
  import opened PathMarks
  import M = MutexMachine
  import E = Explorer
  import R = Reduction
  import V = VersionVectors

  /** The thread scheduled by default: the current one if it can run, else the first that can. */
  function Default(ts: seq<M.Thread>, active: nat): (d: nat)
    requires active < |ts|
    ensures d <= |ts|
    ensures d < |ts| ==> ts[d].state == M.Runnable
    ensures ts[active].state == M.Runnable ==> d == active
    ensures ts[active].state != M.Runnable ==> forall i :: 0 <= i < d ==> ts[i].state != M.Runnable
  {
    if ts[active].state == M.Runnable then active else FirstRunnable(ts)
  }

  function FirstRunnable(ts: seq<M.Thread>): (d: nat)
    ensures d <= |ts|
    ensures d < |ts| ==> ts[d].state == M.Runnable
    ensures forall i :: 0 <= i < d ==> ts[i].state != M.Runnable
  {
    if ts == [] || ts[0].state == M.Runnable then 0 else 1 + FirstRunnable(ts[1..])
  }

  /**
   * The seed: the default thread is active, those that cannot run are disabled, the others are
   * skipped until asked for.
   */
  function SeedOf(ts: seq<M.Thread>, active: nat): (seed: seq<ThreadState>)
    requires active < |ts|
    ensures |seed| == |ts|
  {
    seq(|ts|, i requires 0 <= i < |ts| =>
      if i == Default(ts, active) then Active else if ts[i].state != M.Runnable then Disabled else Skip)
  }

  /** It is a fresh branch point in the sense that exploration relies on. */
  lemma SeedIsSeeded(ts: seq<M.Thread>, active: nat)
    requires active < |ts|
    ensures E.Seeded(Threads(SeedOf(ts, active)), |ts|)
    ensures forall i :: 0 <= i < |ts| ==> (SeedOf(ts, active)[i] == Disabled <==> ts[i].state != M.Runnable)
    ensures ts[active].state == M.Runnable ==> SeedOf(ts, active)[active] == Active
    ensures forall i :: 0 <= i < |ts| && i != active && ts[i].state == M.Runnable ==>
              (SeedOf(ts, active)[i] == Active <==> forall j :: 0 <= j < i || j == active ==> ts[j].state != M.Runnable)
  {
    var d := Default(ts, active);
    if d < |ts| { assert SeedOf(ts, active)[d] == Active; }
  }

  /** The iterator over the threads, with its mutable `initial`. */
  method Seed(ts: seq<M.Thread>, active: nat) returns (seed: seq<ThreadState>)
    requires active < |ts|
    ensures seed == SeedOf(ts, active)
  {
    var initial := if ts[active].state == M.Runnable then Some(active) else None;
    seed := [];
    for i := 0 to |ts|
      invariant |seed| == i
      invariant initial == (if ts[active].state == M.Runnable then Some(active)
                            else if FirstRunnable(ts) < i then Some(FirstRunnable(ts)) else None)
      invariant forall j :: 0 <= j < i ==> seed[j] == SeedOf(ts, active)[j]
    {
      if initial.None? && ts[i].state == M.Runnable { initial := Some(i); }
      var th := if initial == Some(i) then Active else if ts[i].state != M.Runnable then Disabled else Skip;
      seed := seed + [th];
    }
  }

  /**
   * The choice of the next thread, on a new branch point or one that an earlier execution made in the
   * same state: it picks a thread that can run, or nobody only if none can; nobody at all, with
   * threads left that have not ended, is the reported deadlock.
   */
  method Choose(path: Path, ts: seq<M.Thread>, active: nat) returns (next: Option<nat>, deadlock: bool)
    requires active < |ts| && path.Valid()
    requires path.pos < |path.View()| ==>
               GoodNode(path.View()[path.pos]) && Shape(Threads(SeedOf(ts, active)), path.View()[path.pos])
    modifies path
    ensures path.Valid() && path.pos == old(path.pos) + 1 && M.Pick(ts, next)
    ensures var v, p := old(path.View()), old(path.pos);
            path.View() == if p == |v| then v + [Threads(SeedOf(ts, active))] else v
    ensures ChoiceOf(path.View()[old(path.pos)]) == Run(next)
    ensures deadlock <==> next == None && exists t :: 0 <= t < |ts| && ts[t].state != M.Terminated
  {
    var seed := Seed(ts, active);
    SeedIsSeeded(ts, active);
    var r := path.BranchThread(seed);
    next := r.value;
    Picked(seed, path.View()[old(path.pos)], ts, next);
    deadlock := false;
    if next == None {
      for t := 0 to |ts|
        invariant deadlock <==> exists u :: 0 <= u < t && ts[u].state != M.Terminated
      {
        if ts[t].state != M.Terminated { deadlock := true; }
      }
    }
  }

  lemma Picked(seed: seq<ThreadState>, n: Node, ts: seq<M.Thread>, next: Option<nat>)
    requires |seed| == |ts| && forall i :: 0 <= i < |ts| ==> (seed[i] == Disabled <==> ts[i].state != M.Runnable)
    requires GoodNode(n) && Shape(Threads(seed), n) && ChoiceOf(n) == Run(next)
    ensures M.Pick(ts, next)
  {
    if next == None {
      assert Active !in n.ts[..|n.ts|];
      assert n.ts[..|n.ts|] == n.ts;
    }
  }

  // ----- the backtracks -----

  /** The path after these backtracks, in order; `None` if one of them panics. */
  function ApplyMarks(v: seq<Node>, ms: seq<(nat, nat)>): Option<seq<Node>>
    decreases |ms|
  {
    if ms == [] then Some(v)
    else
      var (i, t) := ms[0];
      if i < |v| && v[i].Threads? && t < |v[i].ts|
      then ApplyMarks(v[i := Threads(Backtracked(v[i].ts, t))], ms[1..])
      else None
  }

  lemma {:induction false} ApplyMore(v: seq<Node>, ms: seq<(nat, nat)>, ns: seq<(nat, nat)>)
    ensures var w := ApplyMarks(v, ms); ApplyMarks(v, ms + ns) == if w.Some? then ApplyMarks(w.value, ns) else None
    decreases |ms|
  {
    if ms == [] {
      assert [] + ns == ns;
    } else {
      assert (ms + ns)[1..] == ms[1..] + ns;
      var (i, t) := ms[0];
      if i < |v| && v[i].Threads? && t < |v[i].ts| {
        ApplyMore(v[i := Threads(Backtracked(v[i].ts, t))], ms[1..], ns);
      }
    }
  }

  /** The backtrack names a branch point at which threads were scheduled, and one of them. */
  predicate Names(v: seq<Node>, m: (nat, nat)) { m.0 < |v| && v[m.0].Threads? && m.1 < |v[m.0].ts| }

  /** None of them panics exactly if each names such a thread; and what they leave of each branch point. */
  lemma {:induction false} ApplyLeaves(v: seq<Node>, ms: seq<(nat, nat)>)
    ensures ApplyMarks(v, ms).Some? <==> forall m :: m in ms ==> Names(v, m)
    ensures var w := ApplyMarks(v, ms);
            w.Some? ==> |w.value| == |v| && forall i :: 0 <= i < |v| ==> w.value[i] == AfterMarks(v[i], Named(ms, i))
    decreases |ms|
  {
    hide Backtracked, AfterMarks, Named;
    if ms == [] {
      forall i | 0 <= i < |v| ensures v[i] == AfterMarks(v[i], Named(ms, i)) { NothingNamed(v[i], i); }
    } else {
      var k := |ms| - 1;
      var m := ms[k];
      assert ms == ms[..k] + [m];
      ApplyLeaves(v, ms[..k]);
      ApplyMore(v, ms[..k], [m]);
      if ApplyMarks(v, ms[..k]).Some? {
        var u := ApplyMarks(v, ms[..k]).value;
        OneMark(u, m.0, m.1);
        if m.0 < |v| { SameThreads(v[m.0], Named(ms[..k], m.0)); }
        forall i | 0 <= i < |v|
          ensures AfterMarks(v[i], Named(ms, i)) ==
                  if i == m.0 && Names(v, m) then Threads(Backtracked(u[i].ts, m.1)) else u[i]
        {
          NamedNext(ms[..k], m, i);
          if i == m.0 { AfterNext(v[i], Named(ms[..k], i), m.1); }
        }
      }
    }
  }

  lemma NothingNamed(n: Node, i: nat)
    ensures AfterMarks(n, Named([], i)) == n
  {
  }

  lemma {:induction false} SameThreads(n: Node, names: seq<nat>)
    ensures var m := AfterMarks(n, names); m.Threads? == n.Threads? && (n.Threads? ==> |m.ts| == |n.ts|)
    decreases |names|
  {
    if names != [] { SameThreads(n, names[..|names| - 1]); }
  }

  /** Backtracks before position `n` leave what comes from there on. */
  lemma {:induction false} ApplyBefore(v: seq<Node>, ms: seq<(nat, nat)>, n: nat)
    requires forall m :: m in ms ==> m.0 < n
    ensures var w := ApplyMarks(v, ms); w.Some? ==> |w.value| == |v| && forall i :: n <= i < |v| ==> w.value[i] == v[i]
    decreases |ms|
  {
    if ms != [] {
      var (i, t) := ms[0];
      assert ms[0] in ms;
      if i < |v| && v[i].Threads? && t < |v[i].ts| {
        ApplyBefore(v[i := Threads(Backtracked(v[i].ts, t))], ms[1..], n);
      }
    }
  }

  lemma {:induction false} MarksOfSnoc(xs: seq<R.Access>, c: V.Clock, t: nat, k: nat)
    requires k < |xs|
    ensures R.MarksOf(xs[..k + 1], c, t) ==
            R.MarksOf(xs[..k], c, t) + (if V.LexLeq(xs[k].clock, c) then [] else [(xs[k].path, t)])
  {
    if k == 0 {
      assert xs[..1] == [xs[0]] && xs[..1][1..] == [] && xs[..0] == [];
    } else {
      MarksOfSnoc(xs[1..], c, t, k - 1);
      assert xs[..k + 1][1..] == xs[1..][..k] && xs[..k][1..] == xs[1..][..k - 1];
    }
  }

  /** The loop over one thread's dependent accesses. */
  method BacktrackThread(path: Path, xs: seq<R.Access>, c: V.Clock, t: nat) returns (ok: bool)
    requires path.Valid()
    modifies path
    ensures path.Valid() && path.pos == old(path.pos)
    ensures ok <==> ApplyMarks(old(path.View()), R.MarksOf(xs, c, t)).Some?
    ensures ok ==> ApplyMarks(old(path.View()), R.MarksOf(xs, c, t)) == Some(path.View())
  {
    ghost var v := path.View();
    assert xs[..0] == [];
    for k := 0 to |xs|
      invariant path.Valid() && path.pos == old(path.pos)
      invariant ApplyMarks(v, R.MarksOf(xs[..k], c, t)) == Some(path.View())
    {
      hide ApplyMarks, R.MarksOf, V.LexLeq;
      MarksOfSnoc(xs, c, t, k);
      if !V.LexLeq(xs[k].clock, c) {
        ghost var u := path.View();
        ApplyMore(v, R.MarksOf(xs[..k], c, t), [(xs[k].path, t)]);
        OneMark(u, xs[k].path, t);
        ok := path.Backtrack(xs[k].path, t);
        if !ok {
          PanicStays(v, xs, c, t, k + 1);
          return;
        }
      } else {
        assert R.MarksOf(xs[..k], c, t) + [] == R.MarksOf(xs[..k], c, t);
      }
    }
    assert xs[..|xs|] == xs;
    ok := true;
  }

  lemma OneMark(u: seq<Node>, i: nat, t: nat)
    ensures ApplyMarks(u, [(i, t)]) ==
            if i < |u| && u[i].Threads? && t < |u[i].ts| then Some(u[i := Threads(Backtracked(u[i].ts, t))]) else None
  {
    assert [(i, t)][1..] == [];
  }

  lemma MarksOfStep(xs: seq<R.Access>, c: V.Clock, t: nat)
    ensures xs == [] ==> R.MarksOf(xs, c, t) == []
    ensures xs != [] ==>
              R.MarksOf(xs, c, t) ==
                (if V.LexLeq(xs[0].clock, c) then [] else [(xs[0].path, t)]) + R.MarksOf(xs[1..], c, t)
  {
  }

  lemma {:induction false} MarksOfConcat(xs: seq<R.Access>, ys: seq<R.Access>, c: V.Clock, t: nat)
    ensures R.MarksOf(xs + ys, c, t) == R.MarksOf(xs, c, t) + R.MarksOf(ys, c, t)
    decreases |xs|
  {
    hide R.MarksOf, V.LexLeq;
    MarksOfStep(xs, c, t);
    if xs == [] {
      assert [] + ys == ys;
    } else {
      MarksOfConcat(xs[1..], ys, c, t);
      MarksOfStep(xs + ys, c, t);
      assert (xs + ys)[1..] == xs[1..] + ys && (xs + ys)[0] == xs[0];
    }
  }

  lemma NoMarksYet(v: seq<Node>, objs: seq<R.Object>, ths: seq<R.Thread>)
    ensures ApplyMarks(v, R.Marks(objs, ths, 0)) == Some(v)
  {
  }

  lemma PanicStays(v: seq<Node>, xs: seq<R.Access>, c: V.Clock, t: nat, k: nat)
    requires k <= |xs| && ApplyMarks(v, R.MarksOf(xs[..k], c, t)) == None
    ensures ApplyMarks(v, R.MarksOf(xs, c, t)) == None
  {
    assert xs == xs[..k] + xs[k..];
    MarksOfConcat(xs[..k], xs[k..], c, t);
    ApplyMore(v, R.MarksOf(xs[..k], c, t), R.MarksOf(xs[k..], c, t));
  }

  lemma {:induction false} PanicStaysLater(v: seq<Node>, objs: seq<R.Object>, ths: seq<R.Thread>, j: nat, k: nat)
    requires j <= k <= |ths| && ApplyMarks(v, R.Marks(objs, ths, j)) == None
    ensures ApplyMarks(v, R.Marks(objs, ths, k)) == None
    decreases k - j
  {
    hide ApplyMarks;
    if j < k {
      ApplyMore(v, R.Marks(objs, ths, j), R.MarksOf(R.DependsOn(objs, ths[j]), ths[j].clock, j));
      PanicStaysLater(v, objs, ths, j + 1, k);
    }
  }

  lemma MarksSnoc(objs: seq<R.Object>, ths: seq<R.Thread>, k: nat)
    requires k < |ths|
    ensures R.Marks(objs, ths, k + 1) == R.Marks(objs, ths, k) + R.MarksOf(R.DependsOn(objs, ths[k]), ths[k].clock, k)
  {
  }

  /** The threads as the choice sees them. */
  function States(ths: seq<R.Thread>): (ts: seq<M.Thread>)
    ensures |ts| == |ths| && forall i :: 0 <= i < |ths| ==> ts[i].state == ths[i].state
  {
    seq(|ths|, i requires 0 <= i < |ths| => M.Thread(ths[i].state, None, M.Free))
  }

  /** The part of an execution that scheduling uses. */
  class Execution {
    const path: Path
    const maxThreads: nat
    var threads: seq<R.Thread>
    var active: Option<nat>
    var objs: seq<R.Object>

    constructor (max: nat)
      requires max > 0
      ensures maxThreads == max && threads == R.Init(max).threads && active == Some(0) && objs == []
      ensures fresh(path) && path.Valid() && path.View() == [] && path.pos == 0
    {
      maxThreads := max;
      threads, active, objs := [R.Thread(M.Runnable, None, V.Zero(max))], Some(0), [];
      path := new Path();
    }

    /** As the reduction sees it, given how many threads each branch point so far had. */
    ghost function Value(sizes: seq<Option<nat>>): R.State
      reads this
    {
      R.State(maxThreads, threads, active, objs, sizes, false)
    }

    /** Every thread's backtracks; `false` is a panic. */
    method Backtracks() returns (ok: bool)
      requires path.Valid()
      modifies path
      ensures path.Valid() && path.pos == old(path.pos)
      ensures ok <==> ApplyMarks(old(path.View()), R.Marks(objs, threads, |threads|)).Some?
      ensures ok ==> ApplyMarks(old(path.View()), R.Marks(objs, threads, |threads|)) == Some(path.View())
    {
      hide ApplyMarks, R.MarksOf, R.DependsOn, R.Marks;
      ghost var v := path.View();
      NoMarksYet(v, objs, threads);
      for t := 0 to |threads|
        invariant path.Valid() && path.pos == old(path.pos)
        invariant ApplyMarks(v, R.Marks(objs, threads, t)) == Some(path.View())
      {
        MarksSnoc(objs, threads, t);
        var xs := R.DependsOn(objs, threads[t]);
        ApplyMore(v, R.Marks(objs, threads, t), R.MarksOf(xs, threads[t].clock, t));
        ok := BacktrackThread(path, xs, threads[t].clock, t);
        if !ok {
          PanicStaysLater(v, objs, threads, t + 1, |threads|);
          return;
        }
      }
      ok := true;
    }

    /**
     * `schedule`, called by the active thread after it has set its state and operation.  It
     * panics exactly at a backtrack that does not fit; else it picks a thread that can run,
     * whose access is made as the reduction says.
     */
    method Schedule(ghost sizes: seq<Option<nat>>) returns (ok: bool, switched: bool, deadlock: bool)
      requires path.Valid() && active.Some? && active.value < |threads| && R.Shaped(Value(sizes))
      requires forall m :: m in R.Marks(objs, threads, |threads|) ==> m.0 < path.pos
      requires path.pos < |path.View()| ==>
                 && GoodNode(path.View()[path.pos])
                 && Shape(Threads(SeedOf(States(threads), active.value)), path.View()[path.pos])
      modifies this, path
      ensures path.Valid()
      ensures ok <==> ApplyMarks(old(path.View()), R.Marks(old(objs), old(threads), |old(threads)|)).Some?
      ensures ok ==> path.pos == old(path.pos) + 1 && M.Pick(States(old(threads)), active)
      ensures ok ==>
                var w := ApplyMarks(old(path.View()), R.Marks(old(objs), old(threads), |old(threads)|)).value;
                && path.View() ==
                   (if old(path.pos) == |w| then w + [Threads(SeedOf(States(old(threads)), old(active).value))] else w)
                && ChoiceOf(path.View()[old(path.pos)]) == Run(active)
      ensures ok ==> switched == (active != old(active))
      ensures ok ==>
                (deadlock <==> active == None
                               && exists t :: 0 <= t < |old(threads)| && old(threads)[t].state != M.Terminated)
      ensures ok && active == None ==> threads == old(threads) && objs == old(objs)
      ensures ok && active.Some? ==> active.value < |old(threads)|
      ensures ok && active.Some? ==> R.Accessed(old(Value(sizes)), Value(sizes), active.value, old(path.pos))
    {
      hide SeedOf, ApplyMarks, R.Marks, R.Shaped, R.Accessed, GoodNode, Shape, ChoiceOf;
      var at := path.pos;
      ok := Backtracks();
      if !ok { return false, false, false; }
      ApplyBefore(old(path.View()), R.Marks(objs, threads, |threads|), at);
      var next;
      next, deadlock := Choose(path, States(threads), active.value);
      switched := next != active;
      ghost var before := Value(sizes);
      active := next;
      if next.Some? {
        R.ShapedActive(before, next.value);
        MakeAccess(next.value, at, sizes);
        R.AccessedActive(before, Value(sizes), next.value, next.value, at);
      }
    }

    /** The picked thread learns what its access depends on, and is remembered with it. */
    method MakeAccess(t: nat, at: nat, ghost sizes: seq<Option<nat>>)
      requires R.Shaped(Value(sizes)) && t < |threads|
      modifies `threads, `objs
      ensures R.Accessed(old(Value(sizes)), Value(sizes), t, at)
    {
      R.DependsShaped(Value(sizes), threads[t]);
      if threads[t].operation.None? || threads[t].operation.value.obj >= |objs| { return; }
      var o := threads[t].operation.value;
      var xs := R.DependsOn(objs, threads[t]);
      var c := threads[t].clock;
      assert xs[0..] == xs;
      for k := 0 to |xs|
        invariant |c| == maxThreads && R.JoinAll(c, xs[k..]) == R.JoinAll(threads[t].clock, xs)
      {
        assert xs[k] in xs && xs[k..][0] == xs[k] && xs[k..][1..] == xs[k + 1..];
        c := V.Join(c, xs[k].clock);
      }
      assert xs[|xs|..] == [];
      c := V.Inc(c, t);
      threads := threads[t := threads[t].(clock := c)];
      objs := objs[o.obj := R.SetLast(objs[o.obj], o.action, R.Access(at, c, t))];
    }
  }
}
