/** Every event a thread knows of is bounded by its clock: the invariant behind the memory's coherence. */
module MemoryInvariant {
  import opened Wrappers
  import opened VersionVectors
  import opened Memory
  import opened HappensBefore

  // ----- operations only ever add knowledge -----

  ghost predicate SeenKept(s: seq<Option<nat>>, s': seq<Option<nat>>) {
    forall u :: 0 <= u < |s| && s[u].Some? ==> u < |s'| && s'[u] == s[u]
  }

  ghost predicate WriteKept(w: Write, w': Write) { w'.hb == w.hb && w'.sc == w.sc && SeenKept(w.seen, w'.seen) }

  ghost predicate HistoryKept(ws: seq<Write>, ws': seq<Write>) {
    |ws| <= |ws'| && forall k :: 0 <= k < |ws| ==> WriteKept(ws[k], ws'[k])
  }

  ghost predicate ClocksGrow(x: Clocks, x': Clocks) {
    && |x.threads| <= |x'.threads| && Leq(x.sc, x'.sc)
    && forall t :: 0 <= t < |x.threads| ==> Leq(x.threads[t], x'.threads[t])
  }

  ghost predicate Grows(m: Mem, m': Mem) {
    && m'.n == m.n && ClocksGrow(m.x, m'.x)
    && |m.locs| <= |m'.locs|
    && (forall l :: 0 <= l < |m.locs| ==> HistoryKept(m.locs[l], m'.locs[l]))
    && |m.cells| <= |m'.cells|
  }

  /** The clocks passed on along a history only grow. */
  ghost predicate Chain(ws: seq<Write>) {
    forall i, j :: 0 <= i <= j < |ws| ==> Leq(ws[i].hb, ws[j].hb)
  }

  lemma SeqCstGrows(x: Clocks, t: nat, n: nat)
    requires Current(x, t, n)
    ensures var y := SeqCstPoint(x, t);
            && Current(y, t, n) && |y.threads| == |x.threads| && ClocksGrow(x, y)
            && Leq(x.sc, y.threads[t]) && Leq(x.threads[t], y.sc)
  {
  }

  lemma SyncReadGrows(x: Clocks, t: nat, hb: Clock, o: Order, n: nat)
    requires Current(x, t, n) && |hb| == n
    ensures var y := SyncRead(x, t, hb, o);
            && Current(y, t, n) && |y.threads| == |x.threads| && ClocksGrow(x, y)
            && (Acquiring(o) ==> Leq(hb, y.threads[t]))
            && (o == SeqCst ==> Leq(x.sc, y.threads[t]) && Leq(y.threads[t], y.sc))
  {
    if Acquiring(o) { SeqCstGrows(SetClock(x, t, Join(x.threads[t], hb)), t, n); }
  }

  lemma SyncWriteGrows(x: Clocks, t: nat, o: Order, n: nat)
    requires Current(x, t, n)
    ensures var y := SyncWrite(x, t, o);
            && Current(y, t, n) && |y.threads| == |x.threads| && ClocksGrow(x, y)
            && (o == SeqCst ==> Leq(x.sc, y.threads[t]) && Leq(x.threads[t], y.sc))
  {
    if o == SeqCst { SeqCstGrows(x, t, n); }
  }

  /** Message passing: who acquires a write, or a later one that passes on its clock, knows what its releaser knew. */
  lemma MessagePassing(x: Clocks, t: nat, hb: Clock, o: Order, y: Clocks, u: nat, hb': Clock, o': Order, n: nat)
    requires Current(x, t, n) && Current(y, u, n) && |hb| == n && Releasing(o) && Acquiring(o')
    requires Leq(WriteClock(x, t, hb, o), hb')
    ensures Leq(x.threads[t], SyncRead(y, u, hb', o').threads[u]) && Leq(hb, SyncRead(y, u, hb', o').threads[u])
  {
    JoinIsLeast(hb, x.threads[t]);
    SyncReadGrows(y, u, hb', o', n);
    LeqTransitive(x.threads[t], WriteClock(x, t, hb, o), hb');
    LeqTransitive(hb, WriteClock(x, t, hb, o), hb');
    LeqTransitive(x.threads[t], hb', SyncRead(y, u, hb', o').threads[u]);
    LeqTransitive(hb, hb', SyncRead(y, u, hb', o').threads[u]);
  }

  lemma TickGrows(x: Clocks, t: nat, n: nat)
    requires Current(x, t, n)
    ensures var y := Tick(x, t); Current(y, t, n) && |y.threads| == |x.threads| && ClocksGrow(x, y)
  {
  }

  lemma TouchKeeps(seen: seq<Option<nat>>, t: nat, c: Clock)
    requires t < |c| && |seen| <= |c|
    ensures var s := Touch(seen, t, c);
            && |s| == |c| && SeenKept(seen, s) && s[t].Some?
            && (t >= |seen| || seen[t] == None ==> s[t] == Some(c[t]))
            && (t < |seen| && seen[t].Some? ==> s[t] == seen[t])
  {
  }

  /** No thread has seen a write later than its clock says. */
  ghost predicate SeenOk(w: Write, x: Clocks) {
    forall u :: 0 <= u < |w.seen| && w.seen[u].Some? ==>
                  u < |x.threads| && u < |x.threads[u]| && w.seen[u].value <= x.threads[u][u]
  }

  ghost predicate HistoryOk(ws: seq<Write>, x: Clocks, n: nat) {
    WfWrites(ws, n) && Chain(ws) && forall i :: 0 <= i < |ws| ==> SeenOk(ws[i], x)
  }

  lemma SeenOkGrows(w: Write, x: Clocks, x': Clocks)
    requires SeenOk(w, x) && ClocksGrow(x, x')
    ensures SeenOk(w, x')
  {
  }

  lemma HistoryOkGrows(ws: seq<Write>, x: Clocks, x': Clocks, n: nat)
    requires HistoryOk(ws, x, n) && ClocksGrow(x, x')
    ensures HistoryOk(ws, x', n)
  {
    forall i | 0 <= i < |ws| ensures SeenOk(ws[i], x') { SeenOkGrows(ws[i], x, x'); }
  }

  /** Thread `t` has seen write `w`, no later than clock `c` says. */
  predicate Saw(w: Write, t: nat, c: Clock) {
    t < |c| && t < |w.seen| && w.seen[t].Some? && w.seen[t].value <= c[t]
  }

  lemma TouchOk(ws: seq<Write>, i: nat, t: nat, x: Clocks, n: nat)
    requires HistoryOk(ws, x, n) && i < |ws| && Current(x, t, n)
    ensures var vs := TouchAt(ws, i, t, x.threads[t]);
            && HistoryOk(vs, x, n) && |vs| == |ws| && HistoryKept(ws, vs)
            && vs[i].hb == ws[i].hb && Saw(vs[i], t, x.threads[t])
  {
    var vs := TouchAt(ws, i, t, x.threads[t]);
    TouchKeeps(ws[i].seen, t, x.threads[t]);
    assert SeenOk(vs[i], x) by {
      var s := Touch(ws[i].seen, t, x.threads[t]);
      forall u | 0 <= u < |s| && s[u].Some?
        ensures u < |x.threads| && u < |x.threads[u]| && s[u].value <= x.threads[u][u]
      {
        assert SeenOk(ws[i], x);
        if u != t { assert u < |ws[i].seen| && ws[i].seen[u] == s[u]; }
      }
    }
    forall k | 0 <= k < |ws| ensures WriteKept(ws[k], vs[k]) {}
  }

  lemma LoadOpOk(x: Clocks, t: nat, ws: seq<Write>, i: nat, o: Order, n: nat)
    requires Current(x, t, n) && HistoryOk(ws, x, n) && i < |ws|
    ensures var (y, vs) := LoadOp(x, t, ws, i, o, n);
            var rel := SyncRead(x, t, ws[i].hb, o).threads[t];
            && Current(y, t, n) && |y.threads| == |x.threads| && ClocksGrow(x, y)
            && HistoryOk(vs, y, n) && HistoryKept(ws, vs) && |vs| == |ws|
            && Leq(x.threads[t], rel) && Leq(rel, y.threads[t])
            && (Acquiring(o) ==> Leq(ws[i].hb, rel))
            && (o == SeqCst ==> Leq(rel, y.sc) && Leq(x.sc, y.threads[t]))
            && Saw(vs[i], t, rel)
  {
    var x1 := SyncRead(x, t, ws[i].hb, o);
    SyncReadGrows(x, t, ws[i].hb, o, n);
    TickGrows(x1, t, n);
    TouchOk(ws, i, t, x, n);
    HistoryOkGrows(TouchAt(ws, i, t, x.threads[t]), x, Tick(x1, t), n);
  }

  lemma StoreOpOk(x: Clocks, t: nat, ws: seq<Write>, v: nat, o: Order, n: nat)
    requires Current(x, t, n) && HistoryOk(ws, x, n)
    ensures var (y, vs) := StoreOp(x, t, ws, v, o, n);
            var rel := x.threads[t];
            && Current(y, t, n) && |y.threads| == |x.threads| && ClocksGrow(x, y)
            && HistoryOk(vs, y, n) && HistoryKept(ws, vs) && |vs| == |ws| + 1
            && Leq(rel, y.threads[t])
            && (Releasing(o) ==> Leq(rel, vs[|ws|].hb))
            && (o == SeqCst ==> Leq(rel, y.sc) && Leq(x.sc, y.threads[t]) && vs[|ws|].sc)
            && Saw(vs[|ws|], t, rel)
  {
    var w := NewWrite(x, t, ws, v, o, n);
    var vs := ws + [w];
    var y1 := SyncWrite(x, t, o);
    var y := Tick(y1, t);
    SyncWriteGrows(x, t, o, n);
    TickGrows(y1, t, n);
    TouchKeeps([], t, x.threads[t]);
    assert SeenOk(w, x) by {
      forall u | 0 <= u < |w.seen| && w.seen[u].Some? ensures u == t {}
    }
    forall i, j | 0 <= i <= j < |vs| ensures Leq(vs[i].hb, vs[j].hb) {
      if j == |ws| && i < j { assert Leq(ws[i].hb, ws[|ws| - 1].hb); }
    }
    assert HistoryOk(vs, x, n);
    HistoryOkGrows(vs, x, y, n);
  }

  lemma RmwOpOk(x: Clocks, t: nat, ws: seq<Write>, v: nat, o: Order, n: nat)
    requires Current(x, t, n) && HistoryOk(ws, x, n)
    ensures var (y, vs) := RmwOp(x, t, ws, v, o, n);
            var last := |ws| - 1;
            var rel := SyncRead(x, t, ws[last].hb, o).threads[t];
            && Current(y, t, n) && |y.threads| == |x.threads| && ClocksGrow(x, y)
            && HistoryOk(vs, y, n) && HistoryKept(ws, vs) && |vs| == |ws| + 1
            && Leq(x.threads[t], rel) && Leq(rel, y.threads[t])
            && (Acquiring(o) ==> Leq(ws[last].hb, rel))
            && (Releasing(o) ==> Leq(rel, vs[|ws|].hb))
            && (o == SeqCst ==> Leq(rel, y.sc) && Leq(x.sc, y.threads[t]) && vs[|ws|].sc)
            && Saw(vs[last], t, rel) && Saw(vs[|ws|], t, rel)
  {
    var last := |ws| - 1;
    var ws1 := TouchAt(ws, last, t, x.threads[t]);
    var x1 := SyncRead(x, t, ws[last].hb, o);
    TouchOk(ws, last, t, x, n);
    SyncReadGrows(x, t, ws[last].hb, o, n);
    HistoryOkGrows(ws1, x, x1, n);
    StoreOpOk(x1, t, ws1, v, o, n);
    var (y, vs) := RmwOp(x, t, ws, v, o, n);
    assert (y, vs) == StoreOp(x1, t, ws1, v, o, n);
    hide StoreOp, RmwOp, TouchAt, Touch, SyncRead, Chain, SeenOk;
    forall k | 0 <= k < |ws| ensures WriteKept(ws[k], vs[k]) {
      assert WriteKept(ws[k], ws1[k]) && WriteKept(ws1[k], vs[k]);
    }
    assert WriteKept(ws1[last], vs[last]);
  }

  // ----- the whole memory -----

  ghost predicate MemOk(m: Mem) {
    WfMem(m) && forall l :: 0 <= l < |m.locs| ==> HistoryOk(m.locs[l], m.x, m.n)
  }

  /** Thread `t` has seen write `k` of location `l`, no later than `c` says. */
  ghost predicate SawAt(m: Mem, l: nat, k: nat, t: nat, c: Clock) {
    l < |m.locs| && k < |m.locs[l]| && Saw(m.locs[l][k], t, c)
  }

  /** What an event with clock `c` has left in the memory. */
  ghost predicate EventOk(m: Mem, e: Event, c: Clock) {
    && e.t < |m.x.threads| && Leq(c, m.x.threads[e.t])
    && (forall l: nat, k: nat :: Touches(e, l, k) ==> SawAt(m, l, k, e.t, c))
    && (ReleasedWrite(e).Some? ==>
          var (l, i) := ReleasedWrite(e).value;
          l < |m.locs| && i < |m.locs[l]| && Leq(c, m.locs[l][i].hb))
    && (e.op.Spawn? || e.op.Unpark? ==> e.op.u < |m.x.threads| && Leq(c, m.x.threads[e.op.u]))
    && (IsSeqCst(e) ==> Leq(c, m.x.sc))
    && (IsSeqCst(e) && ReleasedWrite(e).Some? ==>
          m.locs[ReleasedWrite(e).value.0][ReleasedWrite(e).value.1].sc)
  }

  lemma EventOkGrows(m: Mem, m': Mem, e: Event, c: Clock)
    requires EventOk(m, e, c) && Grows(m, m')
    ensures EventOk(m', e, c)
  {
    forall l: nat, k: nat | Touches(e, l, k) ensures SawAt(m', l, k, e.t, c) {
      assert SawAt(m, l, k, e.t, c);
      assert WriteKept(m.locs[l][k], m'.locs[l][k]);
    }
    if ReleasedWrite(e).Some? {
      var (l, i) := ReleasedWrite(e).value;
      assert WriteKept(m.locs[l][i], m'.locs[l][i]);
    }
    LeqTransitive(c, m.x.threads[e.t], m'.x.threads[e.t]);
    if e.op.Spawn? || e.op.Unpark? { LeqTransitive(c, m.x.threads[e.op.u], m'.x.threads[e.op.u]); }
    if IsSeqCst(e) { LeqTransitive(c, m.x.sc, m'.x.sc); }
  }

  lemma HistoryKeptRefl(ws: seq<Write>)
    ensures HistoryKept(ws, ws)
  {
  }

  lemma SetLocOk(m: Mem, l: nat, r: (Clocks, seq<Write>))
    requires MemOk(m) && l < |m.locs|
    requires WfClocks(r.0, m.n) && |r.0.threads| == |m.x.threads| && ClocksGrow(m.x, r.0)
    requires HistoryOk(r.1, r.0, m.n) && HistoryKept(m.locs[l], r.1)
    ensures MemOk(SetLoc(m, l, r)) && Grows(m, SetLoc(m, l, r))
  {
    var m' := SetLoc(m, l, r);
    forall k | 0 <= k < |m.locs|
      ensures HistoryOk(m'.locs[k], m'.x, m.n) && HistoryKept(m.locs[k], m'.locs[k])
    {
      if k != l { HistoryOkGrows(m.locs[k], m.x, r.0, m.n); HistoryKeptRefl(m.locs[k]); }
    }
  }

  /** The clocks change and the histories do not. */
  lemma SetClocksOk(m: Mem, m': Mem)
    requires MemOk(m) && WfClocks(m'.x, m.n) && ClocksGrow(m.x, m'.x)
    requires m'.n == m.n && m'.locs == m.locs && |m.cells| <= |m'.cells|
    requires forall c :: 0 <= c < |m'.cells| ==> |m'.cells[c]| == m.n
    ensures MemOk(m') && Grows(m, m')
  {
    forall k | 0 <= k < |m.locs|
      ensures HistoryOk(m'.locs[k], m'.x, m.n) && HistoryKept(m.locs[k], m'.locs[k])
    {
      HistoryOkGrows(m.locs[k], m.x, m'.x, m.n);
      HistoryKeptRefl(m.locs[k]);
    }
  }

  /** What the clock of the next event bounds, besides what it leaves in the memory. */
  ghost predicate RelOk(m: Mem, t: nat, c: Cmd)
    requires CmdOk(m, t, c)
  {
    var e, rel := EventOf(m, t, c), RelOf(m, t, c);
    && Leq(m.x.threads[t], rel)
    && (AcquiredWrite(e).Some? ==>
          var (l, i) := AcquiredWrite(e).value;
          l < |m.locs| && i < |m.locs[l]| && Leq(m.locs[l][i].hb, rel))
    && (IsSeqCst(e) ==> t < |Do(m, t, c).x.threads| && Leq(m.x.sc, Do(m, t, c).x.threads[t]))
  }

  /** The data of a load, or of a compare-and-exchange that fails. */
  lemma ReadShape(m: Mem, t: nat, c: Cmd)
    requires CmdOk(m, t, c) && EventOf(m, t, c).op.Load?
    ensures var Load(l, i, o) := EventOf(m, t, c).op;
            && l < |m.locs| && i < |m.locs[l]| && WfWrites(m.locs[l], m.n) && EventOf(m, t, c).t == t
            && Do(m, t, c) == SetLoc(m, l, LoadOp(m.x, t, m.locs[l], i, o, m.n))
            && RelOf(m, t, c) == SyncRead(m.x, t, m.locs[l][i].hb, o).threads[t]
  {
    hide RmwOp, LoadOp, SyncRead;
  }

  /** The data of a read-modify-write, or of a compare-and-exchange that succeeds. */
  lemma RmwShape(m: Mem, t: nat, c: Cmd)
    requires CmdOk(m, t, c) && EventOf(m, t, c).op.Rmw?
    ensures var Rmw(l, i, o) := EventOf(m, t, c).op;
            && l < |m.locs| && i == |m.locs[l]| - 1 >= 0 && WfWrites(m.locs[l], m.n) && EventOf(m, t, c).t == t
            && (c.RmwCmd? || c.CasCmd?) && Do(m, t, c) == SetLoc(m, l, RmwOp(m.x, t, m.locs[l], c.v, o, m.n))
            && RelOf(m, t, c) == SyncRead(m.x, t, m.locs[l][i].hb, o).threads[t]
  {
    hide RmwOp, LoadOp, SyncRead;
    match c
    case RmwCmd(_, _, _) =>
    case CasCmd(_, _, _, _, _) =>
  }

  lemma ReadEventOk(m: Mem, t: nat, l: nat, i: nat, o: Order, r: (Clocks, seq<Write>), rel: Clock)
    requires l < |m.locs| && i < |r.1| && t < |r.0.threads|
    requires Saw(r.1[i], t, rel) && Leq(rel, r.0.threads[t]) && (o == SeqCst ==> Leq(rel, r.0.sc))
    ensures EventOk(SetLoc(m, l, r), Event(t, Load(l, i, o)), rel)
  {
  }

  lemma RmwEventOk(m: Mem, t: nat, l: nat, i: nat, o: Order, r: (Clocks, seq<Write>), rel: Clock)
    requires l < |m.locs| && i + 1 < |r.1| && t < |r.0.threads|
    requires Saw(r.1[i], t, rel) && Saw(r.1[i + 1], t, rel) && Leq(rel, r.0.threads[t])
    requires o == SeqCst ==> Leq(rel, r.0.sc) && r.1[i + 1].sc
    requires Releasing(o) ==> Leq(rel, r.1[i + 1].hb)
    ensures EventOk(SetLoc(m, l, r), Event(t, Rmw(l, i, o)), rel)
  {
  }

  lemma ReadOk(m: Mem, t: nat, c: Cmd)
    requires MemOk(m) && CmdOk(m, t, c) && EventOf(m, t, c).op.Load?
    ensures var m' := Do(m, t, c);
            MemOk(m') && Grows(m, m') && EventOk(m', EventOf(m, t, c), RelOf(m, t, c)) && RelOk(m, t, c)
  {
    ReadShape(m, t, c);
    var Load(l, i, o) := EventOf(m, t, c).op;
    assert HistoryOk(m.locs[l], m.x, m.n);
    hide EventOf, RelOf, Do;
    LoadOpOk(m.x, t, m.locs[l], i, o, m.n);
    SetLocOk(m, l, LoadOp(m.x, t, m.locs[l], i, o, m.n));
    hide LoadOp, SyncRead, HistoryOk, HistoryKept, ClocksGrow, MemOk;
    ReadEventOk(m, t, l, i, o, LoadOp(m.x, t, m.locs[l], i, o, m.n), RelOf(m, t, c));
    hide EventOk, Grows, SetLoc;
  }

  lemma StoreOk(m: Mem, t: nat, c: Cmd)
    requires MemOk(m) && CmdOk(m, t, c) && c.StoreCmd?
    ensures var m' := Do(m, t, c);
            MemOk(m') && Grows(m, m') && EventOk(m', EventOf(m, t, c), RelOf(m, t, c)) && RelOk(m, t, c)
  {
    var l := c.loc;
    assert HistoryOk(m.locs[l], m.x, m.n);
    StoreOpOk(m.x, t, m.locs[l], c.v, c.o, m.n);
    SetLocOk(m, l, StoreOp(m.x, t, m.locs[l], c.v, c.o, m.n));
    hide StoreOp, HistoryOk, HistoryKept, ClocksGrow;
  }

  lemma RmwOk(m: Mem, t: nat, c: Cmd)
    requires MemOk(m) && CmdOk(m, t, c) && EventOf(m, t, c).op.Rmw?
    ensures var m' := Do(m, t, c);
            MemOk(m') && Grows(m, m') && EventOk(m', EventOf(m, t, c), RelOf(m, t, c)) && RelOk(m, t, c)
  {
    hide RmwOp, SyncRead, HistoryKept, ClocksGrow, EventOf, RelOf, Do, EventOk;
    RmwShape(m, t, c);
    var Rmw(l, i, o) := EventOf(m, t, c).op;
    assert HistoryOk(m.locs[l], m.x, m.n);
    RmwOpOk(m.x, t, m.locs[l], c.v, o, m.n);
    SetLocOk(m, l, RmwOp(m.x, t, m.locs[l], c.v, o, m.n));
    hide HistoryOk, MemOk;
    RmwEventOk(m, t, l, i, o, RmwOp(m.x, t, m.locs[l], c.v, o, m.n), RelOf(m, t, c));
  }

  lemma NewLocOk(m: Mem, t: nat, c: Cmd)
    requires MemOk(m) && CmdOk(m, t, c) && c.NewAtomic?
    ensures var m' := Do(m, t, c);
            MemOk(m') && Grows(m, m') && EventOk(m', EventOf(m, t, c), RelOf(m, t, c)) && RelOk(m, t, c)
  {
    var m', w := Do(m, t, c), Write(c.v, Zero(m.n), Touch([], t, m.x.threads[t]), false);
    TouchKeeps([], t, m.x.threads[t]);
    forall u | 0 <= u < |w.seen| && w.seen[u].Some? ensures u == t {}
    assert SeenOk(w, m.x) && HistoryOk([w], m.x, m.n);
    forall k | 0 <= k < |m.locs| ensures HistoryKept(m.locs[k], m'.locs[k]) { HistoryKeptRefl(m.locs[k]); }
    assert m'.locs[|m.locs|] == [w];
  }

  lemma SyncOpOk(m: Mem, t: nat, c: Cmd)
    requires MemOk(m) && CmdOk(m, t, c)
    requires c.SpawnCmd? || c.UnparkCmd? || c.SeqCstCmd? || c.NewCell? || c.WithCell? || c.WithCellMut?
    ensures var m' := Do(m, t, c);
            MemOk(m') && Grows(m, m') && EventOk(m', EventOf(m, t, c), RelOf(m, t, c)) && RelOk(m, t, c)
  {
    if c.SeqCstCmd? { SeqCstGrows(m.x, t, m.n); }
    SetClocksOk(m, Do(m, t, c));
  }

  lemma DoOk(m: Mem, t: nat, c: Cmd)
    requires MemOk(m) && CmdOk(m, t, c)
    ensures var m' := Do(m, t, c);
            MemOk(m') && Grows(m, m') && EventOk(m', EventOf(m, t, c), RelOf(m, t, c)) && RelOk(m, t, c)
  {
    var op := EventOf(m, t, c).op;
    if op.Load? { ReadOk(m, t, c); }
    else if op.Store? { StoreOk(m, t, c); }
    else if op.Rmw? { RmwOk(m, t, c); }
    else if c.NewAtomic? { NewLocOk(m, t, c); }
    else { SyncOpOk(m, t, c); }
  }
}
