/**
 * Which writes a load may return, told by the events of the execution: all but those that a newer
 * write, which its thread knows to have been touched, keeps from it.
 */
module MemoryReads {
  import opened Wrappers
  import opened VersionVectors
  import opened Memory
  import opened HappensBefore
  import opened MemoryEffects
  import opened MemoryInvariant
  import opened MemoryKnowledge
  import O = MemoryOwners
  import T = MemoryTheorems

  // ----- where a mark on a write comes from -----

  /** Thread `u` touched the write when its own entry was at most `v`. */
  ghost predicate TouchedBy(r: Run, l: nat, k: nat, u: nat, v: nat)
    requires |r.tr| == |r.rel|
  {
    exists a: nat :: a < |r.tr| && Touches(r.tr[a], l, k) && r.tr[a].t == u && OwnAtMost(r, a, v)
  }

  predicate OwnAtMost(r: Run, a: nat, v: nat) {
    a < |r.tr| && a < |r.rel| && r.tr[a].t < |r.rel[a]| && r.rel[a][r.tr[a].t] <= v
  }

  ghost predicate StoredSeqCst(r: Run, l: nat, k: nat) {
    exists a: nat :: a < |r.tr| && Stores(r.tr[a], l, k) && IsSeqCst(r.tr[a])
  }

  /** Marks on writes come from events. */
  ghost predicate MarksTold(r: Run) {
    && |r.tr| == |r.rel|
    && (forall l: nat, k: nat, u: nat ::
          l < |r.m.locs| && k < |r.m.locs[l]| && FirstSeen(r.m.locs[l][k], u).Some? ==>
            TouchedBy(r, l, k, u, FirstSeen(r.m.locs[l][k], u).value))
    && (forall l: nat, k: nat :: l < |r.m.locs| && k < |r.m.locs[l]| && r.m.locs[l][k].sc ==> StoredSeqCst(r, l, k))
  }

  /** The marks of write `k` of location `l`: those it had, or those that the event leaves. */
  ghost predicate MarkStep(m: Mem, t: nat, c: Cmd, l: nat, k: nat, u: nat)
    requires CmdOk(m, t, c) && l < |Do(m, t, c).locs| && k < |Do(m, t, c).locs[l]|
  {
    var w, e := Do(m, t, c).locs[l][k], EventOf(m, t, c);
    var had := l < |m.locs| && k < |m.locs[l]|;
    && (FirstSeen(w, u).Some? ==>
          || (had && FirstSeen(w, u) == FirstSeen(m.locs[l][k], u))
          || (u == t && t < |m.x.threads[t]| && Touches(e, l, k) && FirstSeen(w, u).value == m.x.threads[t][t]))
    && (w.sc ==> (had && m.locs[l][k].sc) || (IsSeqCst(e) && Stores(e, l, k)))
  }

  /** What an event passes on has no more of its own thread than the thread had. */
  predicate RelOwn(m: Mem, t: nat, c: Cmd)
    requires CmdOk(m, t, c)
  {
    t < |m.x.threads[t]| && t < |RelOf(m, t, c)| && RelOf(m, t, c)[t] == m.x.threads[t][t]
  }

  lemma ReadOwn(m: Mem, t: nat, c: Cmd)
    requires CmdOk(m, t, c) && O.MemOwned(m) && t < m.n
    ensures RelOwn(m, t, c)
  {
    var op := EventOf(m, t, c).op;
    if op.Load? || op.Rmw? {
      if op.Load? { ReadShape(m, t, c); } else { RmwShape(m, t, c); }
      var hb := m.locs[op.loc][op.i].hb;
      hide CmdOk, EventOf, RelOf;
      ReadEffect(m.x, t, hb, op.o, m.n);
      hide SyncRead;
      assert O.WritesOwned(m.locs[op.loc], m.x);
      assert hb[t] <= O.Own(m.x, t) && m.x.sc[t] <= O.Own(m.x, t);
    }
  }

  /** A load, entry by entry. */
  lemma LoadDone(m: Mem, t: nat, c: Cmd) returns (l: nat, i: nat, o: Order, y: Clocks, vs: seq<Write>)
    requires CmdOk(m, t, c) && EventOf(m, t, c).op.Load? && t < m.n
    ensures EventOf(m, t, c) == Event(t, Load(l, i, o)) && l < |m.locs| && i < |m.locs[l]|
    ensures Current(m.x, t, m.n) && WfWrites(m.locs[l], m.n) && Do(m, t, c) == SetLoc(m, l, (y, vs))
    ensures Loaded(m.x, m.locs[l], y, vs, t, i, o, m.n)
  {
    ReadShape(m, t, c);
    l, i, o := EventOf(m, t, c).op.loc, EventOf(m, t, c).op.i, EventOf(m, t, c).op.o;
    LoadEffect(m.x, t, m.locs[l], i, o, m.n);
    y, vs := LoadOp(m.x, t, m.locs[l], i, o, m.n).0, LoadOp(m.x, t, m.locs[l], i, o, m.n).1;
    hide LoadOp, RelOf, SyncRead, Loaded, Do, CmdOk;
  }

  lemma LoadMarks(m: Mem, t: nat, c: Cmd, l: nat, k: nat, u: nat)
    requires CmdOk(m, t, c) && EventOf(m, t, c).op.Load? && t < m.n
    requires l < |Do(m, t, c).locs| && k < |Do(m, t, c).locs[l]|
    ensures MarkStep(m, t, c, l, k, u)
  {
    var j, i, o, y, vs := LoadDone(m, t, c);
    hide EventOf, Do, CmdOk, OnlyOwn, Learnt, FirstSeen;
  }

  lemma StoreMarks(m: Mem, t: nat, c: Cmd, l: nat, k: nat, u: nat)
    requires CmdOk(m, t, c) && c.StoreCmd? && t < m.n
    requires l < |Do(m, t, c).locs| && k < |Do(m, t, c).locs[l]|
    ensures MarkStep(m, t, c, l, k, u)
  {
    StoreEffect(m.x, t, m.locs[c.loc], c.v, c.o, m.n);
    var vs := StoreOp(m.x, t, m.locs[c.loc], c.v, c.o, m.n).1;
    hide StoreOp, OnlyOwn, LearntStoring, FirstSeen;
    if l == c.loc && k < |m.locs[l]| { assert vs[k] == vs[..|m.locs[l]|][k]; }
  }

  lemma RmwSeen(x: Clocks, ws: seq<Write>, c: Clock, y: Clocks, vs: seq<Write>, t: nat, v: nat, o: Order, n: nat,
          k: nat, u: nat)
    requires Current(x, t, n) && t < n && WfWrites(ws, n) && Modified(x, ws, c, y, vs, t, v, o, n) && k < |vs|
    ensures |vs| == |ws| + 1 && |c| == n
    ensures k < |ws| ==> vs[k].sc == ws[k].sc
    ensures k == |ws| ==> vs[k].sc == (o == SeqCst) && FirstSeen(vs[k], u) == if u == t then Some(c[t]) else None
    ensures k == |ws| - 1 && u == t && FirstSeen(ws[k], u) == None ==> FirstSeen(vs[k], u) == Some(x.threads[t][t])
    ensures k < |ws| && (k < |ws| - 1 || u != t || FirstSeen(ws[k], u).Some?) ==>
              FirstSeen(vs[k], u) == FirstSeen(ws[k], u)
  {
    hide OnlyOwn, Learnt, FirstSeen, Current;
    if k < |ws| - 1 { assert vs[k] == vs[..|ws| - 1][k] == ws[..|ws| - 1][k]; }
  }

  lemma RmwMarks(m: Mem, t: nat, c: Cmd, l: nat, k: nat, u: nat)
    requires CmdOk(m, t, c) && RelOwn(m, t, c) && EventOf(m, t, c).op.Rmw? && t < m.n
    requires l < |Do(m, t, c).locs| && k < |Do(m, t, c).locs[l]|
    ensures MarkStep(m, t, c, l, k, u)
  {
    var j, last, o, v, y, vs := RmwDone(m, t, c);
    var e := Event(t, Rmw(j, last, o));
    assert Touches(e, j, last) && Touches(e, j, last + 1) && Stores(e, j, last + 1) && (IsSeqCst(e) <==> o == SeqCst);
    hide EventOf, Do, RelOf, CmdOk, Modified, FirstSeen, Touches, Stores, IsSeqCst;
    if l == j { RmwSeen(m.x, m.locs[j], RelOf(m, t, c), y, vs, t, v, o, m.n, k, u); }
  }

  lemma OtherMarks(m: Mem, t: nat, c: Cmd, l: nat, k: nat, u: nat)
    requires CmdOk(m, t, c) && !HasOrder(EventOf(m, t, c).op) && t < m.n
    requires l < |Do(m, t, c).locs| && k < |Do(m, t, c).locs[l]|
    ensures MarkStep(m, t, c, l, k, u)
  {
  }

  lemma StepMarks(m: Mem, t: nat, c: Cmd, l: nat, k: nat, u: nat)
    requires CmdOk(m, t, c) && RelOwn(m, t, c) && t < m.n
    requires l < |Do(m, t, c).locs| && k < |Do(m, t, c).locs[l]|
    ensures MarkStep(m, t, c, l, k, u)
  {
    hide MarkStep, Do;
    var op := EventOf(m, t, c).op;
    if op.Load? { LoadMarks(m, t, c, l, k, u); }
    else if op.Store? { StoreMarks(m, t, c, l, k, u); }
    else if op.Rmw? { RmwMarks(m, t, c, l, k, u); }
    else { OtherMarks(m, t, c, l, k, u); }
  }

  // ----- over every execution -----

  lemma OldTouch(r: Run, r': Run, l: nat, k: nat, u: nat, v: nat)
    requires Longer(r, r') && TouchedBy(r, l, k, u, v)
    ensures TouchedBy(r', l, k, u, v)
  {
    var a: nat :| a < |r.tr| && Touches(r.tr[a], l, k) && r.tr[a].t == u && OwnAtMost(r, a, v);
    At(r, r', a);
    assert OwnAtMost(r', a, v);
  }

  lemma OldSeqCst(r: Run, r': Run, l: nat, k: nat)
    requires Longer(r, r') && StoredSeqCst(r, l, k)
    ensures StoredSeqCst(r', l, k)
  {
    var a: nat :| a < |r.tr| && Stores(r.tr[a], l, k) && IsSeqCst(r.tr[a]);
    At(r, r', a);
  }

  lemma NewTouch(r: Run, t: nat, c: Cmd, l: nat, k: nat)
    requires CmdOk(r.m, t, c) && |r.tr| == |r.rel| && RelOwn(r.m, t, c) && Touches(EventOf(r.m, t, c), l, k)
    ensures TouchedBy(NextRun(r, t, c), l, k, t, r.m.x.threads[t][t])
  {
    var r' := NextRun(r, t, c);
    NextLonger(r, t, c);
    hide Do, RelOf, Touches;
    assert OwnAtMost(r', |r.tr|, r.m.x.threads[t][t]);
  }

  lemma NextMarks(r: Run, t: nat, c: Cmd)
    requires CmdOk(r.m, t, c) && MarksTold(r) && O.MemOwned(r.m)
    ensures MarksTold(NextRun(r, t, c))
  {
    var r', n := NextRun(r, t, c), |r.tr|;
    NextLonger(r, t, c);
    assert t < r.m.n;
    ReadOwn(r.m, t, c);
    hide Do, RelOf, EventOf, RelOwn, O.MemOwned, CmdOk, NextRun, TouchedBy, StoredSeqCst, FirstSeen, Longer;
    forall l: nat, k: nat, u: nat
      | l < |r'.m.locs| && k < |r'.m.locs[l]| && FirstSeen(r'.m.locs[l][k], u).Some?
      ensures TouchedBy(r', l, k, u, FirstSeen(r'.m.locs[l][k], u).value)
    {
      StepMarks(r.m, t, c, l, k, u);
      if l < |r.m.locs| && k < |r.m.locs[l]| && FirstSeen(r'.m.locs[l][k], u) == FirstSeen(r.m.locs[l][k], u) {
        OldTouch(r, r', l, k, u, FirstSeen(r.m.locs[l][k], u).value);
      } else {
        NewTouch(r, t, c, l, k);
      }
    }
    forall l: nat, k: nat | l < |r'.m.locs| && k < |r'.m.locs[l]| && r'.m.locs[l][k].sc ensures StoredSeqCst(r', l, k) {
      StepMarks(r.m, t, c, l, k, t);
      if l < |r.m.locs| && k < |r.m.locs[l]| && r.m.locs[l][k].sc {
        OldSeqCst(r, r', l, k);
      } else {
        NewSeqCst(r', n, l, k);
      }
    }
  }

  lemma NewSeqCst(r: Run, a: nat, l: nat, k: nat)
    requires a < |r.tr| && Stores(r.tr[a], l, k) && IsSeqCst(r.tr[a])
    ensures StoredSeqCst(r, l, k)
  {
  }

  lemma {:induction false} ExecuteMarks(r: Run, cmds: seq<(nat, Cmd)>)
    requires MarksTold(r) && O.MemOwned(r.m)
    ensures MarksTold(Execute(r, cmds))
    decreases |cmds|
  {
    hide MarksTold, O.MemOwned, CmdOk, Do;
    if cmds != [] {
      var (t, c) := cmds[0];
      if CmdOk(r.m, t, c) {
        NextMarks(r, t, c);
        O.DoOwned(r.m, t, c);
        ExecuteMarks(NextRun(r, t, c), cmds[1..]);
      } else {
        ExecuteMarks(r, cmds[1..]);
      }
    }
  }

  /** Thread `t` knows that its owner has got as far as event `a`. */
  predicate Knows(r: Run, t: nat, a: nat)
    requires a < |r.tr| == |r.rel| && t < |r.m.x.threads|
  {
    var u := r.tr[a].t;
    u < |r.rel[a]| && u < |r.m.x.threads[t]| && r.rel[a][u] <= r.m.x.threads[t][u]
  }

  /** Event `a` keeps a load of thread `t` from every write older than `k`. */
  predicate Hides(r: Run, t: nat, l: nat, k: nat, o: Order, a: nat)
    requires a < |r.tr| == |r.rel| && t < |r.m.x.threads|
  {
    || (Touches(r.tr[a], l, k) && Knows(r, t, a))
    || (o == SeqCst && Stores(r.tr[a], l, k) && IsSeqCst(r.tr[a]))
  }

  /** A scan stops exactly at the writes that some event makes it stop at. */
  lemma StopsExact(r: Run, t: nat, l: nat, k: nat, o: Order)
    requires T.RunOk(r) && MarksTold(r) && t < |r.m.x.threads| && l < |r.m.locs| && k < |r.m.locs[l]|
    ensures Stops(r.m.locs[l][k], r.m.x.threads[t], o) <==> exists a: nat :: a < |r.tr| && Hides(r, t, l, k, o, a)
  {
    var w, c := r.m.locs[l][k], r.m.x.threads[t];
    if o == SeqCst && w.sc {
      assert StoredSeqCst(r, l, k);
      var a: nat :| a < |r.tr| && Stores(r.tr[a], l, k) && IsSeqCst(r.tr[a]);
      assert Hides(r, t, l, k, o, a);
    } else if SeenBy(w.seen, c) {
      SeenToldBy(r, t, l, k);
      var a: nat :| a < |r.tr| && Touches(r.tr[a], l, k) && Knows(r, t, a);
      assert Hides(r, t, l, k, o, a);
    }
    forall a: nat | a < |r.tr| && Hides(r, t, l, k, o, a) ensures Stops(w, c, o) { HidesStops(r, t, l, k, o, a); }
  }

  lemma SeenToldBy(r: Run, t: nat, l: nat, k: nat)
    requires MarksTold(r) && t < |r.m.x.threads| && l < |r.m.locs| && k < |r.m.locs[l]|
    requires SeenBy(r.m.locs[l][k].seen, r.m.x.threads[t])
    ensures exists a: nat :: a < |r.tr| && Touches(r.tr[a], l, k) && Knows(r, t, a)
  {
    var w, c := r.m.locs[l][k], r.m.x.threads[t];
    var u: nat :| u < |c| && u < |w.seen| && w.seen[u].Some? && w.seen[u].value <= c[u];
    assert FirstSeen(w, u).Some?;
    assert TouchedBy(r, l, k, u, w.seen[u].value);
    hide MarksTold;
    var a: nat :| a < |r.tr| && Touches(r.tr[a], l, k) && r.tr[a].t == u && OwnAtMost(r, a, w.seen[u].value);
    assert Knows(r, t, a);
  }

  lemma HidesStops(r: Run, t: nat, l: nat, k: nat, o: Order, a: nat)
    requires T.RunOk(r) && t < |r.m.x.threads| && l < |r.m.locs| && k < |r.m.locs[l]| && a < |r.tr|
    requires Hides(r, t, l, k, o, a)
    ensures Stops(r.m.locs[l][k], r.m.x.threads[t], o)
  {
    assert EventOk(r.m, r.tr[a], r.rel[a]);
    hide T.RunOk;
    if Touches(r.tr[a], l, k) && Knows(r, t, a) {
      var u := r.tr[a].t;
      assert SawAt(r.m, l, k, u, r.rel[a]);
      assert r.m.locs[l][k].seen[u].value <= r.m.x.threads[t][u];
      assert SeenBy(r.m.locs[l][k].seen, r.m.x.threads[t]);
    } else {
      assert ReleasedWrite(r.tr[a]) == Some((l, k));
      assert r.m.locs[l][k].sc;
    }
    assert Stops(r.m.locs[l][k], r.m.x.threads[t], o);
  }

  /** A write may be returned exactly if no newer one stops the scan. */
  lemma ReadableExact(ws: seq<Write>, i: nat, c: Clock, o: Order)
    requires ws != []
    ensures Readable(ws, i, c, o) <==> i < |ws| && forall k :: i < k < |ws| ==> !Stops(ws[k], c, o)
  {
  }

  /**
   * In every execution: a load may return a write exactly if no newer one was touched by an event
   * that the thread knows of, or stored by a sequentially consistent one when the load is.
   */
  lemma LoadsExact(maxThreads: nat, cmds: seq<(nat, Cmd)>, t: nat, l: nat, i: nat, o: Order)
    requires var m := Execute(Start(maxThreads), cmds).m; t < |m.x.threads| && l < |m.locs|
    ensures var r := Execute(Start(maxThreads), cmds);
            && |r.tr| == |r.rel| && r.m.locs[l] != []
            && (Readable(r.m.locs[l], i, r.m.x.threads[t], o) <==>
                  && i < |r.m.locs[l]|
                  && !exists k: nat, a: nat :: i < k < |r.m.locs[l]| && a < |r.tr| && Hides(r, t, l, k, o, a))
  {
    var r := Execute(Start(maxThreads), cmds);
    T.StartOk(maxThreads);
    T.ExecuteOk(Start(maxThreads), cmds);
    ExecuteMarks(Start(maxThreads), cmds);
    assert |r.tr| == |r.rel| && r.m.locs[l] != [] by { assert HistoryOk(r.m.locs[l], r.m.x, r.m.n); }
    hide T.RunOk, MarksTold, Execute, Hides, Stops, Readable;
    ReadableExact(r.m.locs[l], i, r.m.x.threads[t], o);
    forall k: nat | i < k < |r.m.locs[l]|
      ensures Stops(r.m.locs[l][k], r.m.x.threads[t], o) <==> exists a: nat :: a < |r.tr| && Hides(r, t, l, k, o, a)
    {
      StopsExact(r, t, l, k, o);
    }
  }
}
