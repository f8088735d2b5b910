/**
 * What each memory operation does, told entry by entry: who learns what, which clock a write
 * passes on, who has seen it, and which values are in the histories.
 */
module MemoryEffects {
  import opened Wrappers
  import opened VersionVectors
  import opened Memory

  /** Entry `u` of what a thread with clock `c` knows after it has read a write with clock `hb`. */
  function Learnt(c: Clock, hb: Clock, sc: Clock, o: Order, u: nat): nat
    requires u < |c| == |hb| == |sc|
  {
    match o
    case Relaxed => c[u]
    case Release => c[u]
    case Acquire => Max(c[u], hb[u])
    case AcqRel => Max(c[u], hb[u])
    case SeqCst => Max(c[u], Max(hb[u], sc[u]))
  }

  /** Entry `u` of what a thread with clock `c` knows after a store. */
  function LearntStoring(c: Clock, sc: Clock, o: Order, u: nat): nat
    requires u < |c| == |sc|
  {
    if o == SeqCst then Max(c[u], sc[u]) else c[u]
  }

  /** When thread `u` first saw the write, if it has. */
  function FirstSeen(w: Write, u: nat): Option<nat> { if u < |w.seen| then w.seen[u] else None }

  /** Of all the clocks only that of thread `t` changes, and the sequentially consistent one if `o` says so. */
  predicate OnlyOwn(x: Clocks, y: Clocks, t: nat, o: Order) {
    && |y.threads| == |x.threads| && (o != SeqCst ==> y.sc == x.sc)
    && forall s :: 0 <= s < |x.threads| && s != t ==> y.threads[s] == x.threads[s]
  }

  /** The write keeps what it was; at most, thread `t` with clock `c` has now seen it. */
  ghost predicate SeenBesides(w: Write, w': Write, t: nat, c: Clock)
    requires t < |c|
  {
    && w'.value == w.value && w'.hb == w.hb && w'.sc == w.sc
    && FirstSeen(w', t) == (if FirstSeen(w, t).Some? then FirstSeen(w, t) else Some(c[t]))
    && forall u: nat :: u != t ==> FirstSeen(w', u) == FirstSeen(w, u)
  }

  /** A load of write `i` by thread `t`. */
  ghost predicate Loaded(x: Clocks, ws: seq<Write>, y: Clocks, vs: seq<Write>, t: nat, i: nat, o: Order, n: nat)
    requires Current(x, t, n) && t < n && WfWrites(ws, n) && i < |ws|
  {
    && Current(y, t, n) && OnlyOwn(x, y, t, o)
    && (forall u: nat :: u < n ==>
          y.threads[t][u] == Learnt(x.threads[t], ws[i].hb, x.sc, o, u) + if u == t then 1 else 0)
    && (o == SeqCst ==> forall u: nat :: u < n ==> y.sc[u] == Learnt(x.threads[t], ws[i].hb, x.sc, o, u))
    && |vs| == |ws| && SeenBesides(ws[i], vs[i], t, x.threads[t])
    && forall k :: 0 <= k < |ws| && k != i ==> vs[k] == ws[k]
  }

  /** The write that a thread with clock `c` adds after one with clock `hb`. */
  ghost predicate Added(w: Write, v: nat, hb: Clock, c: Clock, t: nat, o: Order, n: nat)
    requires |hb| == |c| == n && t < n
  {
    && w.value == v && w.sc == (o == SeqCst) && |w.hb| == n
    && (forall u: nat :: u < n ==>
          w.hb[u] == if o == Release || o == AcqRel || o == SeqCst then Max(hb[u], c[u]) else hb[u])
    && (forall u: nat :: FirstSeen(w, u) == if u == t then Some(c[t]) else None)
  }

  /** A store of `v` by thread `t`. */
  ghost predicate Stored(x: Clocks, ws: seq<Write>, y: Clocks, vs: seq<Write>, t: nat, v: nat, o: Order, n: nat)
    requires Current(x, t, n) && t < n && WfWrites(ws, n)
  {
    && Current(y, t, n) && OnlyOwn(x, y, t, o)
    && (forall u: nat :: u < n ==>
          y.threads[t][u] == LearntStoring(x.threads[t], x.sc, o, u) + if u == t then 1 else 0)
    && (o == SeqCst ==> forall u: nat :: u < n ==> y.sc[u] == Max(x.sc[u], x.threads[t][u]))
    && |vs| == |ws| + 1 && vs[..|ws|] == ws
    && Added(vs[|ws|], v, ws[|ws| - 1].hb, x.threads[t], t, o, n)
  }

  /** A read-modify-write by thread `t` that stores `v`: `c` is what it knows in between. */
  ghost predicate Modified(x: Clocks, ws: seq<Write>, c: Clock, y: Clocks, vs: seq<Write>, t: nat, v: nat, o: Order,
          n: nat)
    requires Current(x, t, n) && t < n && WfWrites(ws, n)
  {
    var last := |ws| - 1;
    && Current(y, t, n) && OnlyOwn(x, y, t, o) && |c| == n
    && (forall u: nat :: u < n ==> c[u] == Learnt(x.threads[t], ws[last].hb, x.sc, o, u))
    && (forall u: nat :: u < n ==> y.threads[t][u] == c[u] + if u == t then 1 else 0)
    && (o == SeqCst ==> y.sc == c)
    && |vs| == |ws| + 1 && vs[..last] == ws[..last]
    && SeenBesides(ws[last], vs[last], t, x.threads[t])
    && Added(vs[|ws|], v, ws[last].hb, c, t, o, n)
  }

  // ----- the operations do that -----

  lemma TouchSees(w: Write, t: nat, c: Clock)
    requires t < |c|
    ensures SeenBesides(w, w.(seen := Touch(w.seen, t, c)), t, c)
  {
  }

  lemma LoadEffect(x: Clocks, t: nat, ws: seq<Write>, i: nat, o: Order, n: nat)
    requires Current(x, t, n) && t < n && WfWrites(ws, n) && i < |ws|
    ensures var (y, vs) := LoadOp(x, t, ws, i, o, n); Loaded(x, ws, y, vs, t, i, o, n)
  {
    TouchSees(ws[i], t, x.threads[t]);
  }

  lemma NewEffect(x: Clocks, t: nat, ws: seq<Write>, v: nat, o: Order, n: nat)
    requires Current(x, t, n) && t < n && WfWrites(ws, n)
    ensures Added(NewWrite(x, t, ws, v, o, n), v, ws[|ws| - 1].hb, x.threads[t], t, o, n)
  {
  }

  lemma StoreEffect(x: Clocks, t: nat, ws: seq<Write>, v: nat, o: Order, n: nat)
    requires Current(x, t, n) && t < n && WfWrites(ws, n)
    ensures var (y, vs) := StoreOp(x, t, ws, v, o, n); Stored(x, ws, y, vs, t, v, o, n)
  {
    NewEffect(x, t, ws, v, o, n);
    hide Added, NewWrite;
  }

  lemma ReadEffect(x: Clocks, t: nat, hb: Clock, o: Order, n: nat)
    requires Current(x, t, n) && |hb| == n
    ensures var y := SyncRead(x, t, hb, o);
            && Current(y, t, n) && OnlyOwn(x, y, t, o)
            && (forall u: nat :: u < n ==> y.threads[t][u] == Learnt(x.threads[t], hb, x.sc, o, u))
            && (o == SeqCst ==> forall u: nat :: u < n ==> y.sc[u] == y.threads[t][u])
  {
  }

  /** The two halves of a read-modify-write. */
  lemma Halves(x: Clocks, x1: Clocks, y: Clocks, ws: seq<Write>, ws1: seq<Write>, vs: seq<Write>, t: nat, v: nat,
          o: Order, n: nat)
    requires Current(x, t, n) && Current(x1, t, n) && t < n && WfWrites(ws, n) && WfWrites(ws1, n)
    requires OnlyOwn(x, x1, t, o) && (o == SeqCst ==> forall u: nat :: u < n ==> x1.sc[u] == x1.threads[t][u])
    requires forall u: nat :: u < n ==> x1.threads[t][u] == Learnt(x.threads[t], ws[|ws| - 1].hb, x.sc, o, u)
    requires |ws1| == |ws| && ws1[..|ws| - 1] == ws[..|ws| - 1]
    requires SeenBesides(ws[|ws| - 1], ws1[|ws| - 1], t, x.threads[t])
    requires Stored(x1, ws1, y, vs, t, v, o, n)
    ensures Modified(x, ws, x1.threads[t], y, vs, t, v, o, n)
  {
    hide Added, Learnt, FirstSeen;
    var last := |ws| - 1;
    assert vs[..last] == vs[..|ws|][..last] == ws1[..last];
    assert vs[last] == vs[..|ws|][last] == ws1[last];
    if o == SeqCst { assert y.sc == x1.threads[t]; }
  }

  lemma RmwEffect(x: Clocks, t: nat, ws: seq<Write>, v: nat, o: Order, n: nat)
    requires Current(x, t, n) && t < n && WfWrites(ws, n)
    ensures var (y, vs) := RmwOp(x, t, ws, v, o, n);
            Modified(x, ws, SyncRead(x, t, ws[|ws| - 1].hb, o).threads[t], y, vs, t, v, o, n)
  {
    hide SyncRead, StoreOp, Stored, Modified, SeenBesides, Touch, OnlyOwn, Learnt;
    var last := |ws| - 1;
    var ws1, x1 := TouchAt(ws, last, t, x.threads[t]), SyncRead(x, t, ws[last].hb, o);
    ReadEffect(x, t, ws[last].hb, o, n);
    TouchSees(ws[last], t, x.threads[t]);
    assert WfWrites(ws1, n) by { TouchFits(ws, last, t, x.threads[t], n); }
    StoreEffect(x1, t, ws1, v, o, n);
    var (y, vs) := StoreOp(x1, t, ws1, v, o, n);
    assert RmwOp(x, t, ws, v, o, n) == (y, vs) by { RmwIsStore(x, t, ws, v, o, n); }
    Halves(x, x1, y, ws, ws1, vs, t, v, o, n);
  }

  lemma TouchFits(ws: seq<Write>, i: nat, t: nat, c: Clock, n: nat)
    requires WfWrites(ws, n) && i < |ws| && t < |c| == n
    ensures WfWrites(TouchAt(ws, i, t, c), n)
  {
  }

  lemma RmwIsStore(x: Clocks, t: nat, ws: seq<Write>, v: nat, o: Order, n: nat)
    requires Current(x, t, n) && t < n && WfWrites(ws, n)
    ensures var ws1, x1 := TouchAt(ws, |ws| - 1, t, x.threads[t]), SyncRead(x, t, ws[|ws| - 1].hb, o);
            && Current(x1, t, n) && WfWrites(ws1, n)
            && RmwOp(x, t, ws, v, o, n) == StoreOp(x1, t, ws1, v, o, n)
  {
  }

  /** A load that does not acquire teaches its thread nothing: its own entry is one larger, and that is all. */
  lemma RelaxedLearnsNothing(x: Clocks, t: nat, ws: seq<Write>, i: nat, o: Order, n: nat)
    requires Current(x, t, n) && t < n && WfWrites(ws, n) && i < |ws| && (o == Relaxed || o == Release)
    ensures var y := LoadOp(x, t, ws, i, o, n).0;
            y.sc == x.sc && y.threads == x.threads[t := x.threads[t][t := x.threads[t][t] + 1]]
  {
    LoadEffect(x, t, ws, i, o, n);
    var y := LoadOp(x, t, ws, i, o, n).0;
    hide LoadOp;
    assert y.threads[t] == x.threads[t][t := x.threads[t][t] + 1];
  }

  /** A store that does not release passes on what the write before it did, and teaches nothing either. */
  lemma RelaxedPassesOn(x: Clocks, t: nat, ws: seq<Write>, v: nat, o: Order, n: nat)
    requires Current(x, t, n) && t < n && WfWrites(ws, n) && (o == Relaxed || o == Acquire)
    ensures var (y, vs) := StoreOp(x, t, ws, v, o, n);
            && |vs| == |ws| + 1 && vs[|ws|].hb == ws[|ws| - 1].hb
            && y.sc == x.sc && y.threads == x.threads[t := x.threads[t][t := x.threads[t][t] + 1]]
  {
    StoreEffect(x, t, ws, v, o, n);
    var (y, vs) := StoreOp(x, t, ws, v, o, n);
    hide StoreOp;
    assert y.threads[t] == x.threads[t][t := x.threads[t][t] + 1];
    assert vs[|ws|].hb == ws[|ws| - 1].hb;
  }

  /** A compare-and-exchange: its order, and whether it stores, depend on the newest value alone. */
  lemma CasEffect(m: Mem, t: nat, c: Cmd) returns (k: Clock)
    requires CmdOk(m, t, c) && t < m.n && c.CasCmd?
    ensures var ws, x, m' := m.locs[c.loc], m.x, Do(m, t, c);
            var last := ws[|ws| - 1];
            && |m'.locs| == |m.locs| && m'.n == m.n && m'.cells == m.cells && !m'.fault
            && (forall l :: 0 <= l < |m.locs| && l != c.loc ==> m'.locs[l] == m.locs[l])
            && (last.value == c.current ==> Modified(x, ws, k, m'.x, m'.locs[c.loc], t, c.v, c.success, m.n))
            && (last.value != c.current ==> Loaded(x, ws, m'.x, m'.locs[c.loc], t, |ws| - 1, c.failure, m.n))
  {
    hide RmwOp, LoadOp, SyncRead, Modified, Loaded;
    var ws := m.locs[c.loc];
    if ws[|ws| - 1].value == c.current {
      ReadEffect(m.x, t, ws[|ws| - 1].hb, c.success, m.n);
      RmwEffect(m.x, t, ws, c.v, c.success, m.n);
      k := SyncRead(m.x, t, ws[|ws| - 1].hb, c.success).threads[t];
    } else {
      LoadEffect(m.x, t, ws, |ws| - 1, c.failure, m.n);
      k := [];
    }
  }

  /** A new thread starts with what its creator knows and one step of its own; nothing else changes. */
  lemma SpawnEffect(m: Mem, t: nat)
    requires CmdOk(m, t, SpawnCmd) && t < m.n
    ensures var m', s := Do(m, t, SpawnCmd), |m.x.threads|;
            && m'.x.threads[..s] == m.x.threads && |m'.x.threads| == s + 1 && |m'.x.threads[s]| == m.n
            && (forall u :: 0 <= u < m.n ==> m'.x.threads[s][u] == m.x.threads[t][u] + if u == s then 1 else 0)
            && m'.x.sc == m.x.sc && m'.locs == m.locs && m'.cells == m.cells && m'.fault == m.fault
  {
  }
}
