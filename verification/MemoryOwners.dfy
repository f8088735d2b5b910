/** Nobody knows more of a thread than the thread itself: no clock entry exceeds its owner's own. */
module MemoryOwners {
  import opened Wrappers
  import opened VersionVectors
  import opened Memory
  import opened HappensBefore
  import opened MemoryInvariant

  /** The own entry of thread `u`; a thread that does not exist yet has none. */
  function Own(x: Clocks, u: nat): nat {
    if u < |x.threads| && u < |x.threads[u]| then x.threads[u][u] else 0
  }

  predicate Owned(c: Clock, x: Clocks) {
    forall u :: 0 <= u < |c| ==> c[u] <= Own(x, u)
  }

  predicate ClocksOwned(x: Clocks) {
    Owned(x.sc, x) && forall t :: 0 <= t < |x.threads| ==> Owned(x.threads[t], x)
  }

  predicate WritesOwned(ws: seq<Write>, x: Clocks) {
    forall i :: 0 <= i < |ws| ==> Owned(ws[i].hb, x)
  }

  /** Every clock in the memory: of threads, of the sequentially consistent operations, of writes and of cells. */
  ghost predicate MemOwned(m: Mem) {
    && ClocksOwned(m.x)
    && (forall l :: 0 <= l < |m.locs| ==> WritesOwned(m.locs[l], m.x))
    && (forall c :: 0 <= c < |m.cells| ==> Owned(m.cells[c], m.x))
  }

  ghost predicate OwnGrows(x: Clocks, x': Clocks) { forall u: nat :: Own(x, u) <= Own(x', u) }

  lemma JoinOwned(a: Clock, b: Clock, x: Clocks)
    requires Owned(a, x) && Owned(b, x) && |b| <= |a|
    ensures Owned(Join(a, b), x)
  {
  }

  lemma StillOwned(c: Clock, x: Clocks, x': Clocks)
    requires Owned(c, x) && OwnGrows(x, x')
    ensures Owned(c, x')
  {
    forall u | 0 <= u < |c| ensures c[u] <= Own(x', u) { assert Own(x, u) <= Own(x', u); }
  }

  /** A thread's clock grows within what the owners know. */
  lemma SetOwned(x: Clocks, t: nat, c: Clock)
    requires ClocksOwned(x) && t < |x.threads| && Owned(c, x) && Leq(x.threads[t], c)
    ensures ClocksOwned(SetClock(x, t, c)) && OwnGrows(x, SetClock(x, t, c))
  {
    var x' := SetClock(x, t, c);
    forall u: nat ensures Own(x, u) <= Own(x', u) {}
    StillOwned(x.sc, x, x');
    StillOwned(c, x, x');
    forall s | 0 <= s < |x'.threads| ensures Owned(x'.threads[s], x') { if s != t { StillOwned(x.threads[s], x, x'); } }
  }

  lemma TickOwned(x: Clocks, t: nat, n: nat)
    requires ClocksOwned(x) && Current(x, t, n)
    ensures ClocksOwned(Tick(x, t)) && OwnGrows(x, Tick(x, t))
  {
    var x' := Tick(x, t);
    forall u: nat ensures Own(x, u) <= Own(x', u) {}
    StillOwned(x.sc, x, x');
    forall s | 0 <= s < |x'.threads| ensures Owned(x'.threads[s], x') {
      StillOwned(x.threads[s], x, x');
      if s == t {
        forall u | 0 <= u < |x'.threads[s]| ensures x'.threads[s][u] <= Own(x', u) {
          if u != t { assert x'.threads[s][u] == x.threads[s][u]; }
        }
      }
    }
  }

  lemma SeqCstOwned(x: Clocks, t: nat, n: nat)
    requires ClocksOwned(x) && Current(x, t, n)
    ensures ClocksOwned(SeqCstPoint(x, t)) && OwnGrows(x, SeqCstPoint(x, t))
  {
    var c := Join(x.threads[t], x.sc);
    JoinOwned(x.threads[t], x.sc, x);
    JoinIsLeast(x.threads[t], x.sc);
    SetOwned(x, t, c);
    var y := SetClock(x, t, c);
    JoinOwned(x.sc, c, x);
    var sc := Join(x.sc, c);
    StillOwned(sc, x, y);
    var x' := SeqCstPoint(x, t);
    assert x' == y.(sc := sc);
    assert forall u: nat :: Own(x', u) == Own(y, u);
    StillOwned(sc, y, x');
    forall s | 0 <= s < |x'.threads| ensures Owned(x'.threads[s], x') { StillOwned(y.threads[s], y, x'); }
  }

  lemma SyncReadOwned(x: Clocks, t: nat, hb: Clock, o: Order, n: nat)
    requires ClocksOwned(x) && Current(x, t, n) && |hb| == n && Owned(hb, x)
    ensures ClocksOwned(SyncRead(x, t, hb, o)) && OwnGrows(x, SyncRead(x, t, hb, o))
  {
    if Acquiring(o) {
      var c := Join(x.threads[t], hb);
      JoinOwned(x.threads[t], hb, x);
      JoinIsLeast(x.threads[t], hb);
      SetOwned(x, t, c);
      var y := SetClock(x, t, c);
      if o == SeqCst {
        SeqCstOwned(y, t, n);
        assert forall u: nat :: Own(x, u) <= Own(y, u) <= Own(SeqCstPoint(y, t), u);
      }
    }
  }

  lemma SyncWriteOwned(x: Clocks, t: nat, o: Order, n: nat)
    requires ClocksOwned(x) && Current(x, t, n)
    ensures ClocksOwned(SyncWrite(x, t, o)) && OwnGrows(x, SyncWrite(x, t, o))
  {
    if o == SeqCst { SeqCstOwned(x, t, n); }
  }

  lemma WriteClockOwned(x: Clocks, t: nat, hb: Clock, o: Order)
    requires ClocksOwned(x) && t < |x.threads| && |x.threads[t]| == |hb| && Owned(hb, x)
    ensures Owned(WriteClock(x, t, hb, o), x)
  {
    if Releasing(o) { JoinOwned(hb, x.threads[t], x); }
  }

  lemma WritesStillOwned(ws: seq<Write>, x: Clocks, x': Clocks)
    requires WritesOwned(ws, x) && OwnGrows(x, x')
    ensures WritesOwned(ws, x')
  {
    forall i | 0 <= i < |ws| ensures Owned(ws[i].hb, x') { StillOwned(ws[i].hb, x, x'); }
  }

  lemma OwnGrowsTwice(x: Clocks, y: Clocks, z: Clocks)
    requires OwnGrows(x, y) && OwnGrows(y, z)
    ensures OwnGrows(x, z)
  {
    forall u: nat ensures Own(x, u) <= Own(z, u) { assert Own(x, u) <= Own(y, u) <= Own(z, u); }
  }

  lemma LoadOwned(x: Clocks, t: nat, ws: seq<Write>, i: nat, o: Order, n: nat)
    requires ClocksOwned(x) && WritesOwned(ws, x) && Current(x, t, n) && WfWrites(ws, n) && i < |ws|
    ensures var (x', ws') := LoadOp(x, t, ws, i, o, n); ClocksOwned(x') && OwnGrows(x, x') && WritesOwned(ws', x')
  {
    var y := SyncRead(x, t, ws[i].hb, o);
    SyncReadOwned(x, t, ws[i].hb, o, n);
    SyncReadGrows(x, t, ws[i].hb, o, n);
    TickOwned(y, t, n);
    OwnGrowsTwice(x, y, Tick(y, t));
    assert WritesOwned(TouchAt(ws, i, t, x.threads[t]), x);
    WritesStillOwned(TouchAt(ws, i, t, x.threads[t]), x, Tick(y, t));
  }

  /** The write half, on clocks `x` and history `ws`. */
  lemma StoreOwned(x: Clocks, t: nat, ws: seq<Write>, v: nat, o: Order, n: nat)
    requires ClocksOwned(x) && WritesOwned(ws, x) && Current(x, t, n) && WfWrites(ws, n)
    ensures var (x', ws') := StoreOp(x, t, ws, v, o, n); ClocksOwned(x') && OwnGrows(x, x') && WritesOwned(ws', x')
  {
    var y := SyncWrite(x, t, o);
    SyncWriteOwned(x, t, o, n);
    SyncWriteGrows(x, t, o, n);
    TickOwned(y, t, n);
    OwnGrowsTwice(x, y, Tick(y, t));
    WriteClockOwned(x, t, ws[|ws| - 1].hb, o);
    assert WritesOwned(ws + [NewWrite(x, t, ws, v, o, n)], x);
    WritesStillOwned(ws + [NewWrite(x, t, ws, v, o, n)], x, Tick(y, t));
  }

  lemma RmwOwned(x: Clocks, t: nat, ws: seq<Write>, v: nat, o: Order, n: nat)
    requires ClocksOwned(x) && WritesOwned(ws, x) && Current(x, t, n) && WfWrites(ws, n)
    ensures var (x', ws') := RmwOp(x, t, ws, v, o, n); ClocksOwned(x') && OwnGrows(x, x') && WritesOwned(ws', x')
  {
    var last := |ws| - 1;
    var ws1 := TouchAt(ws, last, t, x.threads[t]);
    var x1 := SyncRead(x, t, ws[last].hb, o);
    SyncReadOwned(x, t, ws[last].hb, o, n);
    SyncReadGrows(x, t, ws[last].hb, o, n);
    assert WritesOwned(ws1, x);
    WritesStillOwned(ws1, x, x1);
    assert forall i :: 0 <= i < |ws1| ==> ws1[i].hb == ws[i].hb;
    TouchKeeps(ws[last].seen, t, x.threads[t]);
    assert WfWrites(ws1, n);
    StoreOwned(x1, t, ws1, v, o, n);
    OwnGrowsTwice(x, x1, RmwOp(x, t, ws, v, o, n).0);
  }

  // ----- the whole memory -----

  lemma SetLocOwned(m: Mem, l: nat, r: (Clocks, seq<Write>))
    requires MemOwned(m) && l < |m.locs| && ClocksOwned(r.0) && OwnGrows(m.x, r.0) && WritesOwned(r.1, r.0)
    ensures MemOwned(SetLoc(m, l, r))
  {
    var m' := SetLoc(m, l, r);
    forall k | 0 <= k < |m'.locs| ensures WritesOwned(m'.locs[k], m'.x) {
      if k != l { WritesStillOwned(m.locs[k], m.x, m'.x); }
    }
    forall c | 0 <= c < |m'.cells| ensures Owned(m'.cells[c], m'.x) { StillOwned(m.cells[c], m.x, m'.x); }
  }

  lemma SetClocksOwned(m: Mem, x: Clocks)
    requires MemOwned(m) && ClocksOwned(x) && OwnGrows(m.x, x)
    ensures MemOwned(m.(x := x))
  {
    forall k | 0 <= k < |m.locs| ensures WritesOwned(m.locs[k], x) { WritesStillOwned(m.locs[k], m.x, x); }
    forall c | 0 <= c < |m.cells| ensures Owned(m.cells[c], x) { StillOwned(m.cells[c], m.x, x); }
  }

  /** A new thread starts from its parent's clock, of which its own entry is still 0. */
  lemma SpawnOwned(x: Clocks, t: nat, n: nat)
    requires ClocksOwned(x) && Current(x, t, n) && |x.threads| < n
    ensures var x' := x.(threads := x.threads + [Inc(Join(Zero(n), x.threads[t]), |x.threads|)]);
            ClocksOwned(x') && OwnGrows(x, x')
  {
    var u := |x.threads|;
    var c := Inc(Join(Zero(n), x.threads[t]), u);
    var x' := x.(threads := x.threads + [c]);
    forall v: nat ensures Own(x, v) <= Own(x', v) {}
    StillOwned(x.sc, x, x');
    StillOwned(x.threads[t], x, x');
    forall s | 0 <= s < |x'.threads| ensures Owned(x'.threads[s], x') {
      if s < u {
        StillOwned(x.threads[s], x, x');
      } else {
        forall v | 0 <= v < |c| ensures c[v] <= Own(x', v) { assert x.threads[t][v] <= Own(x', v); }
      }
    }
  }

  lemma AtomicOwned(m: Mem, t: nat, c: Cmd)
    requires MemOwned(m) && CmdOk(m, t, c) && (c.LoadCmd? || c.StoreCmd? || c.RmwCmd? || c.CasCmd?)
    ensures MemOwned(Do(m, t, c))
  {
    hide ClocksOwned, OwnGrows, WritesOwned, LoadOp, StoreOp, RmwOp, SetLoc;
    var ws := m.locs[c.loc];
    match c
    case LoadCmd(l, i, o) =>
      LoadOwned(m.x, t, ws, i, o, m.n);
      SetLocOwned(m, l, LoadOp(m.x, t, ws, i, o, m.n));
    case StoreCmd(l, v, o) =>
      StoreOwned(m.x, t, ws, v, o, m.n);
      SetLocOwned(m, l, StoreOp(m.x, t, ws, v, o, m.n));
    case RmwCmd(l, v, o) =>
      RmwOwned(m.x, t, ws, v, o, m.n);
      SetLocOwned(m, l, RmwOp(m.x, t, ws, v, o, m.n));
    case CasCmd(l, current, v, success, failure) =>
      if ws[|ws| - 1].value == current {
        RmwOwned(m.x, t, ws, v, success, m.n);
        SetLocOwned(m, l, RmwOp(m.x, t, ws, v, success, m.n));
      } else {
        LoadOwned(m.x, t, ws, |ws| - 1, failure, m.n);
        SetLocOwned(m, l, LoadOp(m.x, t, ws, |ws| - 1, failure, m.n));
      }
  }

  lemma ClockOwned(m: Mem, t: nat, c: Cmd)
    requires MemOwned(m) && CmdOk(m, t, c) && (c.SpawnCmd? || c.UnparkCmd? || c.SeqCstCmd?)
    ensures MemOwned(Do(m, t, c))
  {
    match c
    case SpawnCmd => SpawnOwned(m.x, t, m.n);
    case UnparkCmd(u) =>
      JoinOwned(m.x.threads[u], m.x.threads[t], m.x);
      JoinIsLeast(m.x.threads[u], m.x.threads[t]);
      SetOwned(m.x, u, Join(m.x.threads[u], m.x.threads[t]));
    case SeqCstCmd => SeqCstOwned(m.x, t, m.n);
    hide ClocksOwned, OwnGrows, WritesOwned, Owned;
    if Do(m, t, c).x != m.x { SetClocksOwned(m, Do(m, t, c).x); }
  }

  /** The child knows what its parent knew; nobody knows yet of the child. */
  lemma SpawnOrders(x: Clocks, t: nat, n: nat)
    requires ClocksOwned(x) && Current(x, t, n) && |x.threads| < n
    ensures var c := Inc(Join(Zero(n), x.threads[t]), |x.threads|);
            && Leq(x.threads[t], c) && !Leq(c, x.sc)
            && forall s :: 0 <= s < |x.threads| ==> !Leq(c, x.threads[s])
  {
    var u := |x.threads|;
    var c := Inc(Join(Zero(n), x.threads[t]), u);
    assert c[u] > 0 == Own(x, u) && x.sc[u] == 0;
    forall s | 0 <= s < |x.threads| ensures !Leq(c, x.threads[s]) { assert x.threads[s][u] == 0; }
  }

  /** A bumped entry is new: no other clock covers the thread's any more, so that versions are never confused. */
  lemma TickFresh(x: Clocks, t: nat, n: nat)
    requires ClocksOwned(x) && Current(x, t, n)
    ensures var x' := Tick(x, t);
            && x'.sc[t] < x'.threads[t][t] && !Leq(x'.threads[t], x'.sc)
            && forall s :: 0 <= s < |x'.threads| && s != t ==>
                 x'.threads[s][t] < x'.threads[t][t] && !Leq(x'.threads[t], x'.threads[s])
  {
    var x' := Tick(x, t);
    assert x.sc[t] <= Own(x, t) && Own(x, t) == x.threads[t][t];
    forall s | 0 <= s < |x'.threads| && s != t
      ensures x'.threads[s][t] < x'.threads[t][t] && !Leq(x'.threads[t], x'.threads[s])
    {
      assert x.threads[s][t] <= Own(x, t);
    }
  }

  /** A woken thread comes to know exactly what it and its waker knew. */
  lemma UnparkOrders(m: Mem, t: nat, u: nat)
    requires CmdOk(m, t, UnparkCmd(u))
    ensures var m' := Do(m, t, UnparkCmd(u));
            && Leq(m.x.threads[t], m'.x.threads[u]) && Leq(m.x.threads[u], m'.x.threads[u])
            && (forall c :: Leq(m.x.threads[t], c) && Leq(m.x.threads[u], c) ==> Leq(m'.x.threads[u], c))
            && forall s :: 0 <= s < |m.x.threads| && s != u ==> m'.x.threads[s] == m.x.threads[s]
  {
    JoinIsLeast(m.x.threads[u], m.x.threads[t]);
  }

  lemma DoOwned(m: Mem, t: nat, c: Cmd)
    requires MemOwned(m) && CmdOk(m, t, c)
    ensures MemOwned(Do(m, t, c))
  {
    if c.LoadCmd? || c.StoreCmd? || c.RmwCmd? || c.CasCmd? {
      AtomicOwned(m, t, c);
    } else if c.SpawnCmd? || c.UnparkCmd? || c.SeqCstCmd? {
      ClockOwned(m, t, c);
    } else if c.WithCellMut? {
      JoinOwned(m.cells[c.c], m.x.threads[t], m.x);
    }
  }

  lemma {:induction false} ExecuteOwned(r: Run, cmds: seq<(nat, Cmd)>)
    requires MemOwned(r.m)
    ensures MemOwned(Execute(r, cmds).m)
    decreases |cmds|
  {
    hide MemOwned, Do, CmdOk;
    if cmds != [] {
      var (t, c) := cmds[0];
      if CmdOk(r.m, t, c) {
        DoOwned(r.m, t, c);
        ExecuteOwned(NextRun(r, t, c), cmds[1..]);
      } else {
        ExecuteOwned(r, cmds[1..]);
      }
    }
  }

  /** In every execution, no clock anywhere is ahead of a thread's own entry for itself. */
  lemma OwnersKnowBest(maxThreads: nat, cmds: seq<(nat, Cmd)>)
    ensures MemOwned(Execute(Start(maxThreads), cmds).m)
  {
    ExecuteOwned(Start(maxThreads), cmds);
  }
}
