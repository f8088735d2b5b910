/**
 * What threads do not know, over every execution: nothing reaches a clock but along an edge, and a
 * load is kept from an old write only by a newer one that its thread knows to have been seen.
 */
module MemoryKnowledge {
  import opened Wrappers
  import opened VersionVectors
  import opened Memory
  import opened HappensBefore
  import opened MemoryEffects
  import opened MemoryInvariant
  import O = MemoryOwners
  import T = MemoryTheorems

  /** Thread `t` has acquired what event `a` released, or a later write of the same location. */
  ghost predicate Acquired(tr: seq<Event>, a: nat, t: nat)
    requires a < |tr|
  {
    exists b: nat :: a < b < |tr| && tr[b].t == t && SyncEdge(tr[a], tr[b])
  }

  /** Thread `t` has made a sequentially consistent operation after that of event `a`. */
  ghost predicate Fenced(tr: seq<Event>, a: nat, t: nat)
    requires a < |tr|
  {
    IsSeqCst(tr[a]) && exists b: nat :: a < b < |tr| && tr[b].t == t && IsSeqCst(tr[b])
  }

  /** Event `a` of another thread has an edge into thread `t`. */
  ghost predicate Into(tr: seq<Event>, a: nat, t: nat)
    requires a < |tr|
  {
    && tr[a].t != t
    && (tr[a].op == Spawn(t) || tr[a].op == Unpark(t) || Acquired(tr, a, t) || Fenced(tr, a, t))
  }

  predicate Passed(r: Run, a: nat, u: nat, k: nat) { a < |r.rel| && u < |r.rel[a]| && k <= r.rel[a][u] }

  /** What thread `t` knows of thread `u` it was told. */
  ghost predicate TellsThread(r: Run, t: nat, u: nat)
    requires |r.tr| == |r.rel| && t < |r.m.x.threads| && u < |r.m.x.threads[t]|
  {
    exists a: nat :: a < |r.tr| && Into(r.tr, a, t) && Passed(r, a, u, r.m.x.threads[t][u])
  }

  ghost predicate TellsSeqCst(r: Run, u: nat)
    requires |r.tr| == |r.rel| && u < |r.m.x.sc|
  {
    exists a: nat :: a < |r.tr| && IsSeqCst(r.tr[a]) && Passed(r, a, u, r.m.x.sc[u])
  }

  /** What a write passes on was released with it, or with an earlier write of the location. */
  ghost predicate TellsWrite(r: Run, l: nat, i: nat, u: nat)
    requires |r.tr| == |r.rel| && l < |r.m.locs| && i < |r.m.locs[l]| && u < |r.m.locs[l][i].hb|
  {
    exists a: nat, j: nat ::
      a < |r.tr| && j <= i && ReleasedWrite(r.tr[a]) == Some((l, j)) && Passed(r, a, u, r.m.locs[l][i].hb[u])
  }

  ghost predicate ThreadsTold(r: Run)
    requires |r.tr| == |r.rel|
  {
    forall t: nat, u: nat ::
      t < |r.m.x.threads| && u < |r.m.x.threads[t]| && u != t && r.m.x.threads[t][u] > 0 ==> TellsThread(r, t, u)
  }

  ghost predicate SeqCstTold(r: Run)
    requires |r.tr| == |r.rel|
  {
    forall u: nat :: u < |r.m.x.sc| && r.m.x.sc[u] > 0 ==> TellsSeqCst(r, u)
  }

  ghost predicate WritesTold(r: Run)
    requires |r.tr| == |r.rel|
  {
    forall l: nat, i: nat, u: nat ::
      l < |r.m.locs| && i < |r.m.locs[l]| && u < |r.m.locs[l][i].hb| && r.m.locs[l][i].hb[u] > 0 ==>
        TellsWrite(r, l, i, u)
  }

  ghost predicate Told(r: Run) {
    |r.tr| == |r.rel| && ThreadsTold(r) && SeqCstTold(r) && WritesTold(r)
  }

  lemma StartTold(maxThreads: nat)
    ensures Told(Start(maxThreads))
  {
  }

  // ----- one more event -----

  /** One more event: the trace and the clocks passed on are longer. */
  ghost predicate Longer(r: Run, r': Run) {
    |r.tr| == |r.rel| && |r'.tr| == |r'.rel| == |r.tr| + 1 && r'.tr[..|r.tr|] == r.tr && r'.rel[..|r.rel|] == r.rel
  }

  lemma NextLonger(r: Run, t: nat, c: Cmd)
    requires CmdOk(r.m, t, c) && |r.tr| == |r.rel|
    ensures var r' := NextRun(r, t, c);
            && Longer(r, r') && r'.m == Do(r.m, t, c)
            && r'.tr[|r.tr|] == EventOf(r.m, t, c) && r'.rel[|r.tr|] == RelOf(r.m, t, c)
  {
    hide Do, EventOf, RelOf;
  }

  lemma IntoKept(r: Run, r': Run, a: nat, t: nat)
    requires Longer(r, r') && a < |r.tr| && Into(r.tr, a, t)
    ensures Into(r'.tr, a, t)
  {
    assert forall k: nat :: k < |r.tr| ==> r'.tr[k] == r'.tr[..|r.tr|][k] == r.tr[k];
    if Acquired(r.tr, a, t) {
      var b: nat :| a < b < |r.tr| && r.tr[b].t == t && SyncEdge(r.tr[a], r.tr[b]);
      assert SyncEdge(r'.tr[a], r'.tr[b]);
    }
    if Fenced(r.tr, a, t) {
      var b: nat :| a < b < |r.tr| && r.tr[b].t == t && IsSeqCst(r.tr[b]);
      assert IsSeqCst(r'.tr[b]);
    }
  }

  lemma PassedKept(r: Run, r': Run, a: nat, u: nat, k: nat)
    requires Longer(r, r') && a < |r.tr| && Passed(r, a, u, k)
    ensures Passed(r', a, u, k)
  {
    assert r'.rel[a] == r'.rel[..|r.rel|][a];
  }

  lemma At(r: Run, r': Run, a: nat)
    requires Longer(r, r') && a < |r.tr|
    ensures r'.tr[a] == r.tr[a] && r'.rel[a] == r.rel[a]
  {
    assert r'.tr[a] == r'.tr[..|r.tr|][a] && r'.rel[a] == r'.rel[..|r.rel|][a];
  }

  /** A thread that knows no more than before of `u` was told it before. */
  lemma ThreadKept(r: Run, r': Run, t: nat, u: nat)
    requires Longer(r, r') && ThreadsTold(r) && t < |r.m.x.threads| && t < |r'.m.x.threads| && u != t
    requires u < |r.m.x.threads[t]| && u < |r'.m.x.threads[t]| && 0 < r'.m.x.threads[t][u] <= r.m.x.threads[t][u]
    ensures TellsThread(r', t, u)
  {
    assert TellsThread(r, t, u);
    var a: nat :| a < |r.tr| && Into(r.tr, a, t) && Passed(r, a, u, r.m.x.threads[t][u]);
    IntoKept(r, r', a, t);
    PassedKept(r, r', a, u, r.m.x.threads[t][u]);
    hide Into;
  }

  lemma SeqCstKept(r: Run, r': Run, u: nat)
    requires Longer(r, r') && SeqCstTold(r) && u < |r.m.x.sc| && u < |r'.m.x.sc| && 0 < r'.m.x.sc[u] <= r.m.x.sc[u]
    ensures TellsSeqCst(r', u)
  {
    assert TellsSeqCst(r, u);
    var a: nat :| a < |r.tr| && IsSeqCst(r.tr[a]) && Passed(r, a, u, r.m.x.sc[u]);
    At(r, r', a);
    PassedKept(r, r', a, u, r.m.x.sc[u]);
  }

  /** Likewise for a write that passes on no more than one at or before its place did. */
  lemma WriteKeptTold(r: Run, r': Run, l: nat, i: nat, j: nat, u: nat)
    requires Longer(r, r') && WritesTold(r) && l < |r.m.locs| && j < |r.m.locs[l]| && u < |r.m.locs[l][j].hb|
    requires l < |r'.m.locs| && j <= i < |r'.m.locs[l]| && u < |r'.m.locs[l][i].hb|
    requires 0 < r'.m.locs[l][i].hb[u] <= r.m.locs[l][j].hb[u]
    ensures TellsWrite(r', l, i, u)
  {
    assert TellsWrite(r, l, j, u);
    var a: nat, k: nat :| a < |r.tr| && k <= j && ReleasedWrite(r.tr[a]) == Some((l, k))
                          && Passed(r, a, u, r.m.locs[l][j].hb[u]);
    At(r, r', a);
    PassedKept(r, r', a, u, r.m.locs[l][j].hb[u]);
  }

  /** A thread's own events pass on no more than it knows. */
  lemma NotItsOwn(r: Run, a: nat, t: nat, u: nat, k: nat)
    requires T.RunOk(r) && a < |r.tr| && Passed(r, a, u, k) && t < |r.m.x.threads| && u < |r.m.x.threads[t]|
    requires r.m.x.threads[t][u] < k
    ensures r.tr[a].t != t
  {
    assert EventOk(r.m, r.tr[a], r.rel[a]);
  }

  /** What a thread learns from the write it acquires: some other thread has told it. */
  lemma ThreadAcquires(r: Run, r': Run, t: nat, l: nat, i: nat, u: nat)
    requires Longer(r, r') && WritesTold(r) && T.RunOk(r)
    requires l < |r.m.locs| && i < |r.m.locs[l]| && u < |r.m.locs[l][i].hb|
    requires AcquiredWrite(r'.tr[|r.tr|]) == Some((l, i)) && r'.tr[|r.tr|].t == t
    requires t < |r.m.x.threads| && u < |r.m.x.threads[t]| && t < |r'.m.x.threads| && u < |r'.m.x.threads[t]|
    requires r.m.x.threads[t][u] < r'.m.x.threads[t][u] <= r.m.locs[l][i].hb[u]
    ensures TellsThread(r', t, u)
  {
    hide T.RunOk;
    var n, k := |r.tr|, r.m.locs[l][i].hb[u];
    assert TellsWrite(r, l, i, u);
    var a: nat, j: nat :| a < n && j <= i && ReleasedWrite(r.tr[a]) == Some((l, j)) && Passed(r, a, u, k);
    At(r, r', a);
    PassedKept(r, r', a, u, k);
    NotItsOwn(r, a, t, u, k);
    assert SyncEdge(r'.tr[a], r'.tr[n]);
    assert Acquired(r'.tr, a, t);
    assert Into(r'.tr, a, t) && Passed(r', a, u, r'.m.x.threads[t][u]);
    hide SyncEdge, AcquiredWrite, ReleasedWrite;
  }

  /** What a thread learns from the clock of the sequentially consistent operations. */
  lemma ThreadFences(r: Run, r': Run, t: nat, u: nat)
    requires Longer(r, r') && SeqCstTold(r) && T.RunOk(r) && u < |r.m.x.sc|
    requires IsSeqCst(r'.tr[|r.tr|]) && r'.tr[|r.tr|].t == t
    requires t < |r.m.x.threads| && u < |r.m.x.threads[t]| && t < |r'.m.x.threads| && u < |r'.m.x.threads[t]|
    requires r.m.x.threads[t][u] < r'.m.x.threads[t][u] <= r.m.x.sc[u]
    ensures TellsThread(r', t, u)
  {
    hide T.RunOk, IsSeqCst;
    var n, k := |r.tr|, r.m.x.sc[u];
    assert TellsSeqCst(r, u);
    var a: nat :| a < n && IsSeqCst(r.tr[a]) && Passed(r, a, u, k);
    At(r, r', a);
    PassedKept(r, r', a, u, k);
    NotItsOwn(r, a, t, u, k);
    assert Fenced(r'.tr, a, t);
    assert Into(r'.tr, a, t) && Passed(r', a, u, r'.m.x.threads[t][u]);
  }

  // ----- where one command's knowledge comes from -----

  /** Entry `u` of thread `s`: known before, acquired, learnt at a sequentially consistent operation, or handed over. */
  ghost predicate ThreadStep(m: Mem, t: nat, c: Cmd, s: nat, u: nat)
    requires CmdOk(m, t, c) && u < m.n && s < |Do(m, t, c).x.threads| && u < |Do(m, t, c).x.threads[s]|
  {
    var e, k := EventOf(m, t, c), Do(m, t, c).x.threads[s][u];
    || (s < |m.x.threads| && k <= m.x.threads[s][u])
    || (s == t && AcquiredWrite(e).Some? && Within(m, AcquiredWrite(e).value.0, AcquiredWrite(e).value.1, u, k))
    || (s == t && IsSeqCst(e) && k <= m.x.sc[u])
    || (s != t && (e.op == Spawn(s) || e.op == Unpark(s)) && k <= m.x.threads[t][u])
  }

  /** Write `i` of location `l` passes on at least `k` for thread `u`. */
  predicate Within(m: Mem, l: nat, i: nat, u: nat, k: nat) {
    l < |m.locs| && i < |m.locs[l]| && u < |m.locs[l][i].hb| && k <= m.locs[l][i].hb[u]
  }

  lemma LoadThread(m: Mem, t: nat, c: Cmd, s: nat, u: nat)
    requires CmdOk(m, t, c) && EventOf(m, t, c).op.Load? && t < m.n && u < m.n && u != s
    requires s < |Do(m, t, c).x.threads| && u < |Do(m, t, c).x.threads[s]|
    ensures ThreadStep(m, t, c, s, u)
  {
    ReadShape(m, t, c);
    var Load(l, i, o) := EventOf(m, t, c).op;
    LoadEffect(m.x, t, m.locs[l], i, o, m.n);
    hide LoadOp, CmdOk, EventOf, Do, SeenBesides, RelOf;
  }

  lemma StoreThread(m: Mem, t: nat, c: Cmd, s: nat, u: nat)
    requires CmdOk(m, t, c) && c.StoreCmd? && t < m.n && u < m.n && u != s
    requires s < |Do(m, t, c).x.threads| && u < |Do(m, t, c).x.threads[s]|
    ensures ThreadStep(m, t, c, s, u)
  {
    StoreEffect(m.x, t, m.locs[c.loc], c.v, c.o, m.n);
    hide StoreOp, Added;
  }

  lemma RmwLearns(x: Clocks, ws: seq<Write>, c: Clock, y: Clocks, vs: seq<Write>, t: nat, v: nat, o: Order, n: nat,
          u: nat)
    requires Current(x, t, n) && t < n && WfWrites(ws, n) && Modified(x, ws, c, y, vs, t, v, o, n) && u < n && u != t
    ensures |y.threads| == |x.threads| && |y.threads[t]| == n
    ensures y.threads[t][u] == Learnt(x.threads[t], ws[|ws| - 1].hb, x.sc, o, u)
    ensures forall s :: 0 <= s < |x.threads| && s != t ==> y.threads[s] == x.threads[s]
  {
  }

  /** What is learnt was known, or is in the write, or in the clock of the sequentially consistent operations. */
  lemma LearntFrom(c: Clock, hb: Clock, sc: Clock, o: Order, u: nat)
    requires u < |c| == |hb| == |sc|
    ensures var k := Learnt(c, hb, sc, o, u); k <= c[u] || (Acquiring(o) && k <= hb[u]) || (o == SeqCst && k <= sc[u])
  {
  }

  /** A read-modify-write, entry by entry. */
  lemma RmwDone(m: Mem, t: nat, c: Cmd) returns (l: nat, last: nat, o: Order, v: nat, y: Clocks, vs: seq<Write>)
    requires CmdOk(m, t, c) && EventOf(m, t, c).op.Rmw? && t < m.n
    ensures EventOf(m, t, c) == Event(t, Rmw(l, last, o)) && l < |m.locs| && last == |m.locs[l]| - 1
    ensures Current(m.x, t, m.n) && WfWrites(m.locs[l], m.n) && Do(m, t, c) == SetLoc(m, l, (y, vs))
    ensures Modified(m.x, m.locs[l], RelOf(m, t, c), y, vs, t, v, o, m.n)
  {
    RmwShape(m, t, c);
    l, last, o, v := EventOf(m, t, c).op.loc, EventOf(m, t, c).op.i, EventOf(m, t, c).op.o, c.v;
    RmwEffect(m.x, t, m.locs[l], v, o, m.n);
    y, vs := RmwOp(m.x, t, m.locs[l], v, o, m.n).0, RmwOp(m.x, t, m.locs[l], v, o, m.n).1;
    hide RmwOp, RelOf, SyncRead, Modified, Do, CmdOk;
  }

  lemma RmwMine(m: Mem, t: nat, c: Cmd, u: nat)
    requires CmdOk(m, t, c) && EventOf(m, t, c).op.Rmw? && t < m.n && u < m.n && u != t
    requires t < |Do(m, t, c).x.threads| && u < |Do(m, t, c).x.threads[t]|
    ensures ThreadStep(m, t, c, t, u)
  {
    var l, last, o, v, y, vs := RmwDone(m, t, c);
    hide EventOf, RelOf, Modified, Learnt, Do, CmdOk;
    RmwLearns(m.x, m.locs[l], RelOf(m, t, c), y, vs, t, v, o, m.n, u);
    LearntFrom(m.x.threads[t], m.locs[l][last].hb, m.x.sc, o, u);
  }

  lemma RmwThread(m: Mem, t: nat, c: Cmd, s: nat, u: nat)
    requires CmdOk(m, t, c) && EventOf(m, t, c).op.Rmw? && t < m.n && u < m.n && u != s && s != t
    requires s < |Do(m, t, c).x.threads| && u < |Do(m, t, c).x.threads[s]|
    ensures ThreadStep(m, t, c, s, u)
  {
    var l, last, o, v, y, vs := RmwDone(m, t, c);
    hide EventOf, RelOf, Learnt, SeenBesides, Added, Do, CmdOk;
  }

  lemma OtherThread(m: Mem, t: nat, c: Cmd, s: nat, u: nat)
    requires CmdOk(m, t, c) && !HasOrder(EventOf(m, t, c).op) && t < m.n && u < m.n && u != s
    requires s < |Do(m, t, c).x.threads| && u < |Do(m, t, c).x.threads[s]|
    ensures ThreadStep(m, t, c, s, u)
  {
  }

  /** Likewise for the clock of the sequentially consistent operations. */
  ghost predicate SeqCstStep(m: Mem, t: nat, c: Cmd, u: nat)
    requires CmdOk(m, t, c) && u < m.n
  {
    var sc, rel := Do(m, t, c).x.sc, RelOf(m, t, c);
    u < |sc| && (sc[u] <= m.x.sc[u] || (IsSeqCst(EventOf(m, t, c)) && u < |rel| && sc[u] <= rel[u]))
  }

  lemma LoadSeqCst(m: Mem, t: nat, c: Cmd, u: nat)
    requires CmdOk(m, t, c) && EventOf(m, t, c).op.Load? && t < m.n && u < m.n
    ensures SeqCstStep(m, t, c, u)
  {
    ReadShape(m, t, c);
    var Load(l, i, o) := EventOf(m, t, c).op;
    LoadEffect(m.x, t, m.locs[l], i, o, m.n);
    ReadEffect(m.x, t, m.locs[l][i].hb, o, m.n);
    hide LoadOp, CmdOk, EventOf, Do, SeenBesides, RelOf, SyncRead;
  }

  lemma RmwSeqCst(m: Mem, t: nat, c: Cmd, u: nat)
    requires CmdOk(m, t, c) && EventOf(m, t, c).op.Rmw? && t < m.n && u < m.n
    ensures SeqCstStep(m, t, c, u)
  {
    var l, last, o, v, y, vs := RmwDone(m, t, c);
    hide EventOf, RelOf, Learnt, SeenBesides, Added, Do, CmdOk;
  }

  lemma OtherSeqCst(m: Mem, t: nat, c: Cmd, u: nat)
    requires CmdOk(m, t, c) && t < m.n && u < m.n && !EventOf(m, t, c).op.Load? && !EventOf(m, t, c).op.Rmw?
    ensures SeqCstStep(m, t, c, u)
  {
    if c.StoreCmd? {
      StoreEffect(m.x, t, m.locs[c.loc], c.v, c.o, m.n);
      hide StoreOp, Added;
    }
  }

  /** What write `i` of location `l` passes on was passed on by a write up to there, or is what the event releases. */
  ghost predicate WriteStep(m: Mem, t: nat, c: Cmd, l: nat, i: nat, u: nat)
    requires CmdOk(m, t, c) && l < |Do(m, t, c).locs| && i < |Do(m, t, c).locs[l]| && u < |Do(m, t, c).locs[l][i].hb|
  {
    var e, rel, k := EventOf(m, t, c), RelOf(m, t, c), Do(m, t, c).locs[l][i].hb[u];
    || k == 0
    || (i > 0 && Within(m, l, i - 1, u, k)) || Within(m, l, i, u, k)
    || (ReleasedWrite(e) == Some((l, i)) && u < |rel| && k <= rel[u])
  }

  lemma LoadWrite(m: Mem, t: nat, c: Cmd, l: nat, i: nat, u: nat)
    requires CmdOk(m, t, c) && EventOf(m, t, c).op.Load? && t < m.n
    requires l < |Do(m, t, c).locs| && i < |Do(m, t, c).locs[l]| && u < |Do(m, t, c).locs[l][i].hb|
    ensures WriteStep(m, t, c, l, i, u)
  {
    ReadShape(m, t, c);
    var Load(k, j, o) := EventOf(m, t, c).op;
    LoadEffect(m.x, t, m.locs[k], j, o, m.n);
    hide LoadOp, CmdOk, EventOf, Do, OnlyOwn, RelOf, SyncRead, Learnt;
  }

  lemma StoreWrite(m: Mem, t: nat, c: Cmd, l: nat, i: nat, u: nat)
    requires CmdOk(m, t, c) && c.StoreCmd? && t < m.n
    requires l < |Do(m, t, c).locs| && i < |Do(m, t, c).locs[l]| && u < |Do(m, t, c).locs[l][i].hb|
    ensures WriteStep(m, t, c, l, i, u)
  {
    StoreEffect(m.x, t, m.locs[c.loc], c.v, c.o, m.n);
    var vs := StoreOp(m.x, t, m.locs[c.loc], c.v, c.o, m.n).1;
    hide StoreOp, OnlyOwn, LearntStoring, FirstSeen;
    if l == c.loc && i < |m.locs[l]| { assert vs[i] == vs[..|m.locs[l]|][i]; }
  }

  lemma RmwPasses(x: Clocks, ws: seq<Write>, c: Clock, y: Clocks, vs: seq<Write>, t: nat, v: nat, o: Order, n: nat,
          i: nat)
    requires Current(x, t, n) && t < n && WfWrites(ws, n) && Modified(x, ws, c, y, vs, t, v, o, n) && i < |vs|
    ensures |vs| == |ws| + 1 && |vs[i].hb| == n && |c| == n
    ensures i < |ws| ==> vs[i].hb == ws[i].hb
    ensures i == |ws| ==> forall u :: 0 <= u < n ==>
              vs[i].hb[u] == if Releasing(o) then Max(ws[i - 1].hb[u], c[u]) else ws[i - 1].hb[u]
  {
    hide OnlyOwn, Learnt, FirstSeen, Current;
    if i < |ws| - 1 { assert vs[i] == vs[..|ws| - 1][i] == ws[..|ws| - 1][i]; }
  }

  lemma RmwWrite(m: Mem, t: nat, c: Cmd, l: nat, i: nat, u: nat)
    requires CmdOk(m, t, c) && EventOf(m, t, c).op.Rmw? && t < m.n
    requires l < |Do(m, t, c).locs| && i < |Do(m, t, c).locs[l]| && u < |Do(m, t, c).locs[l][i].hb|
    ensures WriteStep(m, t, c, l, i, u)
  {
    var k, last, o, v, y, vs := RmwDone(m, t, c);
    hide EventOf, Do, RelOf, Modified, CmdOk, ReleasedWrite;
    if l == k {
      assert vs[i] == Do(m, t, c).locs[l][i];
      RmwPasses(m.x, m.locs[k], RelOf(m, t, c), y, vs, t, v, o, m.n, i);
      if i <= last {
        assert Within(m, l, i, u, vs[i].hb[u]);
      } else if !Releasing(o) || vs[i].hb[u] <= m.locs[k][last].hb[u] {
        assert Within(m, l, last, u, vs[i].hb[u]);
      } else {
        RmwReleases(t, k, last, o);
      }
    } else {
      assert Do(m, t, c).locs[l] == m.locs[l];
      assert Within(m, l, i, u, m.locs[l][i].hb[u]);
    }
  }

  lemma RmwReleases(t: nat, l: nat, i: nat, o: Order)
    requires Releasing(o)
    ensures ReleasedWrite(Event(t, Rmw(l, i, o))) == Some((l, i + 1))
  {
  }

  lemma OtherWrite(m: Mem, t: nat, c: Cmd, l: nat, i: nat, u: nat)
    requires CmdOk(m, t, c) && !HasOrder(EventOf(m, t, c).op)
    requires l < |Do(m, t, c).locs| && i < |Do(m, t, c).locs[l]| && u < |Do(m, t, c).locs[l][i].hb|
    ensures WriteStep(m, t, c, l, i, u)
  {
  }

  // ----- so nobody learns but along an edge -----

  lemma StepThread(m: Mem, t: nat, c: Cmd, s: nat, u: nat)
    requires CmdOk(m, t, c) && t < m.n && u < m.n && u != s
    requires s < |Do(m, t, c).x.threads| && u < |Do(m, t, c).x.threads[s]|
    ensures ThreadStep(m, t, c, s, u)
  {
    hide ThreadStep, Do;
    var op := EventOf(m, t, c).op;
    if op.Load? { LoadThread(m, t, c, s, u); }
    else if op.Store? { StoreThread(m, t, c, s, u); }
    else if op.Rmw? && s == t { RmwMine(m, t, c, u); }
    else if op.Rmw? { RmwThread(m, t, c, s, u); }
    else { OtherThread(m, t, c, s, u); }
  }

  lemma StepSeqCst(m: Mem, t: nat, c: Cmd, u: nat)
    requires CmdOk(m, t, c) && t < m.n && u < m.n
    ensures SeqCstStep(m, t, c, u)
  {
    hide SeqCstStep, Do;
    var op := EventOf(m, t, c).op;
    if op.Load? { LoadSeqCst(m, t, c, u); }
    else if op.Rmw? { RmwSeqCst(m, t, c, u); }
    else { OtherSeqCst(m, t, c, u); }
  }

  lemma StepWrite(m: Mem, t: nat, c: Cmd, l: nat, i: nat, u: nat)
    requires CmdOk(m, t, c) && t < m.n
    requires l < |Do(m, t, c).locs| && i < |Do(m, t, c).locs[l]| && u < |Do(m, t, c).locs[l][i].hb|
    ensures WriteStep(m, t, c, l, i, u)
  {
    hide WriteStep, Do;
    var op := EventOf(m, t, c).op;
    if op.Load? { LoadWrite(m, t, c, l, i, u); }
    else if op.Store? { StoreWrite(m, t, c, l, i, u); }
    else if op.Rmw? { RmwWrite(m, t, c, l, i, u); }
    else { OtherWrite(m, t, c, l, i, u); }
  }

  lemma HandsOver(r: Run, t: nat, c: Cmd, s: nat, u: nat)
    requires CmdOk(r.m, t, c) && |r.tr| == |r.rel| && s != t && u < |r.m.x.threads[t]|
    requires EventOf(r.m, t, c).op == Spawn(s) || EventOf(r.m, t, c).op == Unpark(s)
    ensures var r' := NextRun(r, t, c); Into(r'.tr, |r.tr|, s) && Passed(r', |r.tr|, u, r.m.x.threads[t][u])
  {
    hide Do;
  }

  lemma NextThread(r: Run, t: nat, c: Cmd, s: nat, u: nat)
    requires T.RunOk(r) && Told(r) && CmdOk(r.m, t, c) && u != s
    requires s < |Do(r.m, t, c).x.threads| && u < |Do(r.m, t, c).x.threads[s]| && Do(r.m, t, c).x.threads[s][u] > 0
    ensures TellsThread(NextRun(r, t, c), s, u)
  {
    var r', m := NextRun(r, t, c), r.m;
    NextLonger(r, t, c);
    assert |Do(m, t, c).x.threads[s]| == m.n && t < m.n by { DoOk(m, t, c); }
    StepThread(m, t, c, s, u);
    hide T.RunOk, Do, EventOf, RelOf, NextRun, AcquiredWrite, IsSeqCst, Into, TellsThread, Longer, CmdOk;
    var k := r'.m.x.threads[s][u];
    if s < |m.x.threads| && k <= m.x.threads[s][u] {
      ThreadKept(r, r', s, u);
    } else if (r'.tr[|r.tr|].op == Spawn(s) || r'.tr[|r.tr|].op == Unpark(s)) && s != t && k <= m.x.threads[t][u] {
      HandsOver(r, t, c, s, u);
      Handed(r', |r.tr|, s, u, m.x.threads[t][u]);
    } else if IsSeqCst(r'.tr[|r.tr|]) && k <= m.x.sc[u] {
      ThreadFences(r, r', s, u);
    } else {
      var (l, i) := AcquiredWrite(r'.tr[|r.tr|]).value;
      ThreadAcquires(r, r', s, l, i, u);
    }
  }

  lemma Handed(r: Run, a: nat, s: nat, u: nat, k: nat)
    requires |r.tr| == |r.rel| && a < |r.tr| && Into(r.tr, a, s) && Passed(r, a, u, k)
    requires s < |r.m.x.threads| && u < |r.m.x.threads[s]| && r.m.x.threads[s][u] <= k
    ensures TellsThread(r, s, u)
  {
    hide Into;
    assert Passed(r, a, u, r.m.x.threads[s][u]);
  }

  lemma NextSeqCst(r: Run, t: nat, c: Cmd, u: nat)
    requires T.RunOk(r) && Told(r) && CmdOk(r.m, t, c) && u < |Do(r.m, t, c).x.sc| && Do(r.m, t, c).x.sc[u] > 0
    ensures TellsSeqCst(NextRun(r, t, c), u)
  {
    var r', n := NextRun(r, t, c), |r.tr|;
    NextLonger(r, t, c);
    assert |Do(r.m, t, c).x.sc| == r.m.n && t < r.m.n by { DoOk(r.m, t, c); }
    StepSeqCst(r.m, t, c, u);
    hide T.RunOk, Do, EventOf, RelOf, NextRun, IsSeqCst, CmdOk;
    if r'.m.x.sc[u] <= r.m.x.sc[u] {
      SeqCstKept(r, r', u);
    } else {
      assert Passed(r', n, u, r'.m.x.sc[u]);
    }
  }

  lemma NextWrite(r: Run, t: nat, c: Cmd, l: nat, i: nat, u: nat)
    requires T.RunOk(r) && Told(r) && CmdOk(r.m, t, c)
    requires l < |Do(r.m, t, c).locs| && i < |Do(r.m, t, c).locs[l]| && u < |Do(r.m, t, c).locs[l][i].hb|
    requires Do(r.m, t, c).locs[l][i].hb[u] > 0
    ensures TellsWrite(NextRun(r, t, c), l, i, u)
  {
    var r', n, k := NextRun(r, t, c), |r.tr|, Do(r.m, t, c).locs[l][i].hb[u];
    NextLonger(r, t, c);
    assert t < r.m.n;
    StepWrite(r.m, t, c, l, i, u);
    hide T.RunOk, Do, EventOf, RelOf, NextRun, ReleasedWrite, CmdOk, Longer, TellsWrite;
    if Within(r.m, l, i, u, k) {
      WriteKeptTold(r, r', l, i, i, u);
    } else if i > 0 && Within(r.m, l, i - 1, u, k) {
      WriteKeptTold(r, r', l, i, i - 1, u);
    } else {
      Releases(r', n, l, i, u);
    }
  }

  lemma Releases(r: Run, a: nat, l: nat, i: nat, u: nat)
    requires |r.tr| == |r.rel| && a < |r.tr| && ReleasedWrite(r.tr[a]) == Some((l, i))
    requires l < |r.m.locs| && i < |r.m.locs[l]| && u < |r.m.locs[l][i].hb| && Passed(r, a, u, r.m.locs[l][i].hb[u])
    ensures TellsWrite(r, l, i, u)
  {
  }

  lemma NextTold(r: Run, t: nat, c: Cmd)
    requires T.RunOk(r) && Told(r) && CmdOk(r.m, t, c)
    ensures Told(NextRun(r, t, c))
  {
    var r' := NextRun(r, t, c);
    NextLonger(r, t, c);
    hide T.RunOk, NextRun, TellsThread, TellsSeqCst, TellsWrite, Do, CmdOk;
    forall s: nat, u: nat | s < |r'.m.x.threads| && u < |r'.m.x.threads[s]| && u != s && r'.m.x.threads[s][u] > 0
      ensures TellsThread(r', s, u)
    {
      NextThread(r, t, c, s, u);
    }
    forall u: nat | u < |r'.m.x.sc| && r'.m.x.sc[u] > 0 ensures TellsSeqCst(r', u) { NextSeqCst(r, t, c, u); }
    forall l: nat, i: nat, u: nat
      | l < |r'.m.locs| && i < |r'.m.locs[l]| && u < |r'.m.locs[l][i].hb| && r'.m.locs[l][i].hb[u] > 0
      ensures TellsWrite(r', l, i, u)
    {
      NextWrite(r, t, c, l, i, u);
    }
  }

  // ----- every execution -----

  /** What has an edge into a thread is known to it. */
  lemma IntoKnown(r: Run, a: nat, t: nat)
    requires T.RunOk(r) && a < |r.tr| && Into(r.tr, a, t)
    ensures t < |r.m.x.threads| && Leq(r.rel[a], r.m.x.threads[t])
  {
    assert EventOk(r.m, r.tr[a], r.rel[a]);
    if Acquired(r.tr, a, t) {
      var b: nat :| a < b < |r.tr| && r.tr[b].t == t && SyncEdge(r.tr[a], r.tr[b]);
      assert Edge(r.tr, a, b) && EventOk(r.m, r.tr[b], r.rel[b]);
      LeqTransitive(r.rel[a], r.rel[b], r.m.x.threads[t]);
    } else if Fenced(r.tr, a, t) {
      var b: nat :| a < b < |r.tr| && r.tr[b].t == t && IsSeqCst(r.tr[b]);
      assert T.SeqCstOk(r);
    }
  }

  /** By event `b` its thread has heard of event `a`, over any number of edges. */
  ghost predicate Heard(tr: seq<Event>, a: nat, b: nat)
    requires b < |tr|
    decreases b
  {
    && a < b
    && (|| Into(tr[..b + 1], a, tr[b].t)
        || exists c: nat :: a < c < b && Heard(tr, a, c) && Into(tr[..b + 1], c, tr[b].t))
  }

  lemma {:induction false} HeardKept(tr: seq<Event>, us: seq<Event>, a: nat, b: nat)
    requires tr <= us && b < |tr| && Heard(tr, a, b)
    ensures Heard(us, a, b)
    decreases b
  {
    assert us[..b + 1] == tr[..b + 1] && us[b] == tr[b];
    if !Into(tr[..b + 1], a, tr[b].t) {
      var c: nat :| a < c < b && Heard(tr, a, c) && Into(tr[..b + 1], c, tr[b].t);
      HeardKept(tr, us, a, c);
    }
  }

  /** Event `b` passes on of thread `u` what `u` itself knew at an event that `b` had heard of. */
  ghost predicate FromOwner(r: Run, b: nat, u: nat)
    requires |r.tr| == |r.rel| && b < |r.tr| && u < |r.rel[b]|
  {
    exists a: nat :: a < b && r.tr[a].t == u && Heard(r.tr, a, b) && Passed(r, a, u, r.rel[b][u])
  }

  ghost predicate AllFromOwners(r: Run)
    requires |r.tr| == |r.rel|
  {
    forall b: nat, u: nat :: b < |r.tr| && u < |r.rel[b]| && u != r.tr[b].t && r.rel[b][u] > 0 ==> FromOwner(r, b, u)
  }

  lemma FromOwnerKept(r: Run, r': Run, b: nat, u: nat)
    requires Longer(r, r') && b < |r.tr| && u < |r.rel[b]| && FromOwner(r, b, u)
    ensures u < |r'.rel[b]| && FromOwner(r', b, u)
  {
    At(r, r', b);
    var a: nat :| a < b && r.tr[a].t == u && Heard(r.tr, a, b) && Passed(r, a, u, r.rel[b][u]);
    At(r, r', a);
    HeardKept(r.tr, r'.tr, a, b);
    PassedKept(r, r', a, u, r.rel[b][u]);
  }

  lemma PassesWhatItKnows(r: Run, a: nat)
    requires T.RunOk(r) && a < |r.tr|
    ensures r.tr[a].t < |r.m.x.threads| && Leq(r.rel[a], r.m.x.threads[r.tr[a].t])
  {
    assert EventOk(r.m, r.tr[a], r.rel[a]);
  }

  /** What the newest event passes on of another thread was told to its thread. */
  lemma LastWasTold(r: Run, n: nat, u: nat) returns (c: nat)
    requires T.RunOk(r) && Told(r) && |r.tr| == n + 1
    requires u < |r.rel[n]| && u != r.tr[n].t && r.rel[n][u] > 0
    ensures c < n && Into(r.tr[..n + 1], c, r.tr[n].t) && Passed(r, c, u, r.rel[n][u])
  {
    hide T.RunOk, SeqCstTold, WritesTold, Acquired, Fenced;
    var t := r.tr[n].t;
    PassesWhatItKnows(r, n);
    assert r.tr == r.tr[..n + 1];
    assert TellsThread(r, t, u);
    c :| c < |r.tr| && Into(r.tr, c, t) && Passed(r, c, u, r.m.x.threads[t][u]);
  }

  lemma LastFromOwner(r: Run, r': Run, u: nat)
    requires Longer(r, r') && T.RunOk(r') && Told(r') && AllFromOwners(r)
    requires u < |r'.rel[|r.tr|]| && u != r'.tr[|r.tr|].t && r'.rel[|r.tr|][u] > 0
    ensures FromOwner(r', |r.tr|, u)
  {
    hide T.RunOk, Told, Into;
    var n := |r.tr|;
    var c := LastWasTold(r', n, u);
    At(r, r', c);
    if r'.tr[c].t == u {
      assert Heard(r'.tr, c, n);
    } else {
      assert FromOwner(r, c, u);
      FromOwnerKept(r, r', c, u);
      hide AllFromOwners, Longer;
      var a: nat :| a < c && r'.tr[a].t == u && Heard(r'.tr, a, c) && Passed(r', a, u, r'.rel[c][u]);
      assert Heard(r'.tr, a, n);
      assert Passed(r', a, u, r'.rel[n][u]);
    }
  }

  lemma MoreFromOwners(r: Run, r': Run)
    requires Longer(r, r') && T.RunOk(r') && Told(r') && AllFromOwners(r)
    ensures AllFromOwners(r')
  {
    hide T.RunOk, Told, FromOwner;
    forall b: nat, u: nat | b < |r'.tr| && u < |r'.rel[b]| && u != r'.tr[b].t && r'.rel[b][u] > 0
      ensures FromOwner(r', b, u)
    {
      if b < |r.tr| {
        At(r, r', b);
        FromOwnerKept(r, r', b, u);
      } else {
        LastFromOwner(r, r', u);
      }
    }
  }

  lemma NextFromOwners(r: Run, t: nat, c: Cmd)
    requires T.RunOk(r) && Told(r) && CmdOk(r.m, t, c) && AllFromOwners(r)
    ensures AllFromOwners(NextRun(r, t, c))
  {
    assert |r.tr| == |r.rel|;
    hide T.RunOk, NextRun, Told, CmdOk, AllFromOwners, Longer, Do, EventOf, RelOf;
    var r' := NextRun(r, t, c);
    NextLonger(r, t, c);
    T.NextOk(r, t, c);
    NextTold(r, t, c);
    MoreFromOwners(r, r');
  }

  lemma {:induction false} ExecuteTold(r: Run, cmds: seq<(nat, Cmd)>)
    requires T.RunOk(r) && Told(r) && AllFromOwners(r)
    ensures var r' := Execute(r, cmds); Told(r') && AllFromOwners(r')
    decreases |cmds|
  {
    hide T.RunOk, Told, AllFromOwners, CmdOk, NextRun;
    if cmds != [] {
      var (t, c) := cmds[0];
      if CmdOk(r.m, t, c) {
        T.NextOk(r, t, c);
        NextTold(r, t, c);
        NextFromOwners(r, t, c);
        ExecuteTold(NextRun(r, t, c), cmds[1..]);
      } else {
        ExecuteTold(r, cmds[1..]);
      }
    }
  }

  /**
   * In every execution: of another thread, a thread knows the most that some event with an edge
   * into it passed on; what the sequentially consistent operations and the writes pass on was
   * passed to them; and all that an event knows of another thread it has heard from that thread.
   */
  lemma KnowledgeExact(maxThreads: nat, cmds: seq<(nat, Cmd)>)
    ensures var r := Execute(Start(maxThreads), cmds);
            && Told(r) && AllFromOwners(r)
            && forall a: nat, t: nat :: a < |r.tr| && Into(r.tr, a, t) ==>
                 t < |r.m.x.threads| && Leq(r.rel[a], r.m.x.threads[t])
  {
    var r := Execute(Start(maxThreads), cmds);
    T.StartOk(maxThreads);
    StartTold(maxThreads);
    ExecuteTold(Start(maxThreads), cmds);
    T.ExecuteOk(Start(maxThreads), cmds);
    hide *;
    forall a: nat, t: nat | a < |r.tr| && Into(r.tr, a, t)
      ensures t < |r.m.x.threads| && Leq(r.rel[a], r.m.x.threads[t])
    {
      IntoKnown(r, a, t);
    }
  }
}
