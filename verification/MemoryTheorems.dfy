/** Loads respect happens-before, and the causality assertions of cells raise no false alarm. */
module MemoryTheorems {
  import opened Wrappers
  import opened VersionVectors
  import opened Memory
  import opened HappensBefore
  import opened MemoryInvariant

  // ----- the invariant of a run -----

  ghost predicate EdgesOk(r: Run)
    requires |r.tr| == |r.rel|
  {
    forall a: nat, b: nat :: a < b < |r.tr| && Edge(r.tr, a, b) ==> Leq(r.rel[a], r.rel[b])
  }

  /** A thread that made a sequentially consistent operation knows all earlier ones. */
  ghost predicate SeqCstOk(r: Run)
    requires |r.tr| == |r.rel|
  {
    forall a: nat, b: nat :: a < b < |r.tr| && IsSeqCst(r.tr[a]) && IsSeqCst(r.tr[b]) ==>
      r.tr[b].t < |r.m.x.threads| && Leq(r.rel[a], r.m.x.threads[r.tr[b].t])
  }

  /** A write is newer than every write that was read or stored before it was made. */
  ghost predicate NewestLast(tr: seq<Event>) {
    forall a: nat, b: nat, l: nat, k: nat, i: nat ::
      a < b < |tr| && Touches(tr[a], l, k) && Stores(tr[b], l, i) ==> k < i
  }

  predicate ChangesCell(e: Event, c: nat) { (e.op.CellNew? || e.op.CellWrite?) && e.op.c == c }

  /** Entry `u` of a cell's version comes from an event that created or changed the cell. */
  ghost predicate CellBound(r: Run, c: nat, u: nat)
    requires |r.tr| == |r.rel| && c < |r.m.cells| && u < |r.m.cells[c]|
  {
    exists a: nat :: a < |r.tr| && ChangesCell(r.tr[a], c) && u < |r.rel[a]| && r.m.cells[c][u] <= r.rel[a][u]
  }

  ghost predicate CellsOk(r: Run)
    requires |r.tr| == |r.rel|
  {
    && (forall c: nat, u: nat :: c < |r.m.cells| && u < |r.m.cells[c]| ==> CellBound(r, c, u))
    && (forall a: nat :: a < |r.tr| && (r.tr[a].op.CellNew? || r.tr[a].op.CellWrite?) ==> r.tr[a].op.c < |r.m.cells|)
  }

  ghost predicate RunOk(r: Run) {
    && MemOk(r.m) && |r.tr| == |r.rel|
    && (forall a :: 0 <= a < |r.tr| ==> EventOk(r.m, r.tr[a], r.rel[a]))
    && EdgesOk(r) && SeqCstOk(r) && NewestLast(r.tr) && CellsOk(r)
  }

  /** Whatever happens before the next event of thread `t`, other than by what that event acquires, its clock bounds. */
  lemma KnownBefore(r: Run, t: nat, c: Cmd, a: nat)
    requires RunOk(r) && CmdOk(r.m, t, c) && a < |r.tr|
    requires var tr := NextRun(r, t, c).tr; StartEdge(tr[a], tr[|r.tr|]) || SeqCstEdge(tr, a, |r.tr|)
    ensures Leq(r.rel[a], r.m.x.threads[t])
  {
    var tr := NextRun(r, t, c).tr;
    assert EventOk(r.m, r.tr[a], r.rel[a]);
    if SeqCstEdge(tr, a, |r.tr|) {
      var k :| a < k < |r.tr| && IsSeqCst(tr[k]) && tr[k].t == t;
      assert tr[k] == r.tr[k];
    }
  }

  lemma NextEdges(r: Run, t: nat, c: Cmd)
    requires RunOk(r) && CmdOk(r.m, t, c)
    ensures EdgesOk(NextRun(r, t, c))
  {
    var r', n := NextRun(r, t, c), |r.tr|;
    DoOk(r.m, t, c);
    forall a: nat, b: nat | a < b < |r'.tr| && Edge(r'.tr, a, b) ensures Leq(r'.rel[a], r'.rel[b]) {
      if b < n {
        EdgePrefix(r.tr, r'.tr, a, b);
      } else {
        if StartEdge(r'.tr[a], r'.tr[n]) || SeqCstEdge(r'.tr, a, n) {
          KnownBefore(r, t, c, a);
          LeqTransitive(r.rel[a], r.m.x.threads[t], r'.rel[n]);
        } else {
          AcquiredClock(r, t, c, a);
        }
      }
    }
  }

  /** What an event acquires bounds what the releasing event passed on. */
  lemma AcquiredClock(r: Run, t: nat, c: Cmd, a: nat)
    requires RunOk(r) && CmdOk(r.m, t, c) && a < |r.tr| && SyncEdge(r.tr[a], EventOf(r.m, t, c))
    ensures Leq(r.rel[a], RelOf(r.m, t, c))
  {
    DoOk(r.m, t, c);
    assert EventOk(r.m, r.tr[a], r.rel[a]);
    var (l, i) := ReleasedWrite(r.tr[a]).value;
    var (_, j) := AcquiredWrite(EventOf(r.m, t, c)).value;
    assert HistoryOk(r.m.locs[l], r.m.x, r.m.n);
    assert Leq(r.m.locs[l][i].hb, r.m.locs[l][j].hb);
  }

  lemma NextSeqCst(r: Run, t: nat, c: Cmd)
    requires RunOk(r) && CmdOk(r.m, t, c)
    ensures SeqCstOk(NextRun(r, t, c))
  {
    var r', n := NextRun(r, t, c), |r.tr|;
    DoOk(r.m, t, c);
    forall a: nat, b: nat | a < b < |r'.tr| && IsSeqCst(r'.tr[a]) && IsSeqCst(r'.tr[b])
      ensures r'.tr[b].t < |r'.m.x.threads| && Leq(r'.rel[a], r'.m.x.threads[r'.tr[b].t])
    {
      assert EventOk(r.m, r.tr[a], r.rel[a]);
      if b < n {
        LeqTransitive(r.rel[a], r.m.x.threads[r.tr[b].t], r'.m.x.threads[r.tr[b].t]);
      } else {
        LeqTransitive(r.rel[a], r.m.x.sc, r'.m.x.threads[t]);
      }
    }
  }

  lemma NextNewest(r: Run, t: nat, c: Cmd)
    requires RunOk(r) && CmdOk(r.m, t, c)
    ensures NewestLast(NextRun(r, t, c).tr)
  {
    var r', n := NextRun(r, t, c), |r.tr|;
    forall a: nat, b: nat, l: nat, k: nat, i: nat
      | a < b < |r'.tr| && Touches(r'.tr[a], l, k) && Stores(r'.tr[b], l, i)
      ensures k < i
    {
      if b == n {
        assert EventOk(r.m, r.tr[a], r.rel[a]);
        assert SawAt(r.m, l, k, r.tr[a].t, r.rel[a]);
      } else {
        assert r'.tr[a] == r.tr[a] && r'.tr[b] == r.tr[b];
      }
    }
  }

  lemma NextCells(r: Run, t: nat, c: Cmd)
    requires RunOk(r) && CmdOk(r.m, t, c)
    ensures CellsOk(NextRun(r, t, c))
  {
    var r', n := NextRun(r, t, c), |r.tr|;
    assert r'.tr[n] == EventOf(r.m, t, c) && r'.rel[n] == RelOf(r.m, t, c);
    forall d: nat, u: nat | d < |r'.m.cells| && u < |r'.m.cells[d]| ensures CellBound(r', d, u) {
      if d < |r.m.cells| && r'.m.cells[d][u] == r.m.cells[d][u] {
        assert CellBound(r, d, u);
        var a: nat :| a < n && ChangesCell(r.tr[a], d) && u < |r.rel[a]| && r.m.cells[d][u] <= r.rel[a][u];
        assert r'.tr[a] == r.tr[a] && r'.rel[a] == r.rel[a];
      } else {
        assert ChangesCell(r'.tr[n], d) && r'.m.cells[d][u] <= r'.rel[n][u];
      }
    }
  }

  lemma NextOk(r: Run, t: nat, c: Cmd)
    requires RunOk(r) && CmdOk(r.m, t, c)
    ensures RunOk(NextRun(r, t, c))
  {
    var r' := NextRun(r, t, c);
    DoOk(r.m, t, c);
    NextEdges(r, t, c);
    NextSeqCst(r, t, c);
    NextNewest(r, t, c);
    NextCells(r, t, c);
    forall a | 0 <= a < |r'.tr| ensures EventOk(r'.m, r'.tr[a], r'.rel[a]) {
      if a < |r.tr| { EventOkGrows(r.m, r'.m, r.tr[a], r.rel[a]); }
    }
  }

  lemma StartOk(maxThreads: nat)
    ensures RunOk(Start(maxThreads))
  {
  }

  lemma {:induction false} ExecuteOk(r: Run, cmds: seq<(nat, Cmd)>)
    requires RunOk(r)
    ensures RunOk(Execute(r, cmds))
    decreases |cmds|
  {
    if cmds != [] {
      var (t, c) := cmds[0];
      if CmdOk(r.m, t, c) {
        NextOk(r, t, c);
        ExecuteOk(NextRun(r, t, c), cmds[1..]);
      } else {
        ExecuteOk(r, cmds[1..]);
      }
    }
  }

  // ----- reads respect happens-before -----

  /** Happens-before is reflected by the clocks that events pass on. */
  lemma {:induction false} BeforeBounded(r: Run, a: nat, b: nat)
    requires |r.tr| == |r.rel| && EdgesOk(r) && b < |r.tr| && Before(r.tr, a, b)
    ensures Leq(r.rel[a], r.rel[b])
    decreases b
  {
    if !Edge(r.tr, a, b) {
      var c: nat :| a < c < b && Before(r.tr, a, c) && Edge(r.tr, c, b);
      BeforeBounded(r, a, c);
      LeqTransitive(r.rel[a], r.rel[c], r.rel[b]);
    }
  }

  /** The last edge on the way from `a` to the next event. */
  lemma LastEdge(r: Run, e: Event, a: nat) returns (c: nat)
    requires RunOk(r) && a < |r.tr| && Before(r.tr + [e], a, |r.tr|)
    ensures a <= c < |r.tr| && Edge(r.tr + [e], c, |r.tr|)
    ensures Leq(r.rel[a], r.rel[c])
  {
    var tr, n := r.tr + [e], |r.tr|;
    if Edge(tr, a, n) {
      c := a;
      assert EventOk(r.m, r.tr[a], r.rel[a]);
    } else {
      c :| a < c < n && Before(tr, a, c) && Edge(tr, c, n);
      BeforePrefix(r.tr, tr, a, c);
      BeforeBounded(r, a, c);
    }
  }

  /** A clock that bounds an event keeps a load from reading past what the event touched. */
  lemma SeenStops(r: Run, t: nat, l: nat, i: nat, o: Order, a: nat, k: nat)
    requires RunOk(r) && CmdOk(r.m, t, LoadCmd(l, i, o)) && a < |r.tr| && Touches(r.tr[a], l, k)
    requires Leq(r.rel[a], r.m.x.threads[t])
    ensures k <= i
  {
    assert EventOk(r.m, r.tr[a], r.rel[a]);
    var u := r.tr[a].t;
    assert SawAt(r.m, l, k, u, r.rel[a]);
    assert Stops(r.m.locs[l][k], r.m.x.threads[t], o) by {
      assert r.m.locs[l][k].seen[u].value <= r.m.x.threads[t][u];
    }
  }

  /** What a releasing event touched is no newer than what it released. */
  lemma TouchedBeforeRelease(r: Run, a: nat, c: nat, l: nat, k: nat, i: nat)
    requires RunOk(r) && a <= c < |r.tr| && Touches(r.tr[a], l, k) && ReleasedWrite(r.tr[c]) == Some((l, i))
    ensures k <= i
  {
    if a < c { assert Stores(r.tr[c], l, i); }
  }

  lemma NextReads(r: Run, t: nat, c: Cmd, a: nat, l: nat, k: nat, i: nat)
    requires RunOk(r) && CmdOk(r.m, t, c) && a < |r.tr| && Before(NextRun(r, t, c).tr, a, |r.tr|)
    requires Touches(r.tr[a], l, k) && Reads(EventOf(r.m, t, c), l, i)
    ensures k <= i
  {
    var e, n := EventOf(r.m, t, c), |r.tr|;
    if c.LoadCmd? {
      var d := LastEdge(r, e, a);
      var tr := r.tr + [e];
      assert tr[d] == r.tr[d];
      if StartEdge(tr[d], tr[n]) || SeqCstEdge(tr, d, n) {
        KnownBefore(r, t, c, d);
        LeqTransitive(r.rel[a], r.rel[d], r.m.x.threads[t]);
        SeenStops(r, t, l, i, c.o, a, k);
      } else {
        TouchedBeforeRelease(r, a, d, l, k, ReleasedWrite(r.tr[d]).value.1);
      }
    } else {
      assert EventOk(r.m, r.tr[a], r.rel[a]);
      assert SawAt(r.m, l, k, r.tr[a].t, r.rel[a]);
    }
  }

  /** No read returns a write older than one that an event before it read or stored. */
  ghost predicate ReadsCoherent(tr: seq<Event>) {
    forall a: nat, b: nat, l: nat, k: nat, i: nat ::
      b < |tr| && Before(tr, a, b) && Touches(tr[a], l, k) && Reads(tr[b], l, i) ==> k <= i
  }

  /** A read-modify-write reads the newest write of its location. */
  ghost predicate RmwNewest(tr: seq<Event>) {
    forall a: nat, b: nat, l: nat, k: nat, i: nat ::
      a < b < |tr| && tr[b].op.Rmw? && Stores(tr[a], l, k) && Reads(tr[b], l, i) ==> k <= i
  }

  /** A sequentially consistent load reads no write older than the newest sequentially consistent one. */
  ghost predicate SeqCstNewest(tr: seq<Event>) {
    forall a: nat, b: nat, l: nat, k: nat, i: nat ::
      (a < b < |tr| && IsSeqCst(tr[a]) && ReleasedWrite(tr[a]) == Some((l, k))
       && tr[b].op == Load(l, i, SeqCst)) ==> k <= i
  }

  lemma NextReadsCoherent(r: Run, t: nat, c: Cmd)
    requires RunOk(r) && CmdOk(r.m, t, c) && ReadsCoherent(r.tr)
    ensures ReadsCoherent(NextRun(r, t, c).tr)
  {
    var tr, n := NextRun(r, t, c).tr, |r.tr|;
    forall a: nat, b: nat, l: nat, k: nat, i: nat
      | b < |tr| && Before(tr, a, b) && Touches(tr[a], l, k) && Reads(tr[b], l, i)
      ensures k <= i
    {
      assert tr[a] == r.tr[a];
      if b < n {
        assert tr[b] == r.tr[b];
        BeforePrefix(r.tr, tr, a, b);
      } else {
        NextReads(r, t, c, a, l, k, i);
      }
    }
  }

  lemma NextRmwNewest(r: Run, t: nat, c: Cmd)
    requires RunOk(r) && CmdOk(r.m, t, c) && RmwNewest(r.tr)
    ensures RmwNewest(NextRun(r, t, c).tr)
  {
    var tr, n := NextRun(r, t, c).tr, |r.tr|;
    assert forall a: nat :: a < n ==> tr[a] == r.tr[a];
    forall a: nat, b: nat, l: nat, k: nat, i: nat
      | a < b < |tr| && tr[b].op.Rmw? && Stores(tr[a], l, k) && Reads(tr[b], l, i)
      ensures k <= i
    {
      if b == n { assert EventOk(r.m, r.tr[a], r.rel[a]); assert SawAt(r.m, l, k, r.tr[a].t, r.rel[a]); }
    }
  }

  lemma NextSeqCstNewest(r: Run, t: nat, c: Cmd)
    requires RunOk(r) && CmdOk(r.m, t, c) && SeqCstNewest(r.tr)
    ensures SeqCstNewest(NextRun(r, t, c).tr)
  {
    var tr, n := NextRun(r, t, c).tr, |r.tr|;
    assert forall a: nat :: a < n ==> tr[a] == r.tr[a];
    forall a: nat, b: nat, l: nat, k: nat, i: nat
      | a < b < |tr| && IsSeqCst(tr[a]) && ReleasedWrite(tr[a]) == Some((l, k)) && tr[b].op == Load(l, i, SeqCst)
      ensures k <= i
    {
      if b == n {
        assert EventOk(r.m, r.tr[a], r.rel[a]);
        assert Stops(r.m.locs[l][k], r.m.x.threads[t], SeqCst);
      }
    }
  }

  lemma {:induction false} ExecuteCoherent(r: Run, cmds: seq<(nat, Cmd)>)
    requires RunOk(r) && ReadsCoherent(r.tr) && RmwNewest(r.tr) && SeqCstNewest(r.tr)
    ensures var tr := Execute(r, cmds).tr; ReadsCoherent(tr) && RmwNewest(tr) && SeqCstNewest(tr)
    decreases |cmds|
  {
    if cmds != [] {
      var (t, c) := cmds[0];
      if CmdOk(r.m, t, c) {
        NextOk(r, t, c);
        NextReadsCoherent(r, t, c);
        NextRmwNewest(r, t, c);
        NextSeqCstNewest(r, t, c);
        ExecuteCoherent(NextRun(r, t, c), cmds[1..]);
      } else {
        ExecuteCoherent(r, cmds[1..]);
      }
    }
  }

  /** In every execution, of any number of threads and locations. */
  lemma MemoryCoherent(maxThreads: nat, cmds: seq<(nat, Cmd)>)
    ensures var tr := Execute(Start(maxThreads), cmds).tr;
            ReadsCoherent(tr) && RmwNewest(tr) && SeqCstNewest(tr) && NewestLast(tr)
  {
    StartOk(maxThreads);
    ExecuteOk(Start(maxThreads), cmds);
    ExecuteCoherent(Start(maxThreads), cmds);
  }

  // ----- causal cells -----

  /** Whoever accesses a cell comes after its creation and after every change of it so far. */
  ghost predicate CellsOrdered(tr: seq<Event>) {
    forall a: nat, b: nat, c: nat ::
      a < b < |tr| && ChangesCell(tr[a], c) && tr[b].op in {CellRead(c), CellWrite(c)} ==> Before(tr, a, b)
  }

  lemma CellAccessPasses(r: Run, t: nat, c: Cmd)
    requires RunOk(r) && CmdOk(r.m, t, c) && (c.WithCell? || c.WithCellMut?)
    requires forall a: nat :: a < |r.tr| && ChangesCell(r.tr[a], c.c) ==> Before(NextRun(r, t, c).tr, a, |r.tr|)
    ensures !Do(r.m, t, c).fault
  {
    var e, n, mine := EventOf(r.m, t, c), |r.tr|, r.m.x.threads[t];
    var tr := r.tr + [e];
    var v := r.m.cells[c.c];
    forall u: nat | u < |v| ensures v[u] <= mine[u] {
      assert CellBound(r, c.c, u);
      var a: nat :| a < n && ChangesCell(r.tr[a], c.c) && u < |r.rel[a]| && v[u] <= r.rel[a][u];
      var d := LastEdge(r, e, a);
      assert tr[d] == r.tr[d] && AcquiredWrite(tr[n]) == None;
      KnownBefore(r, t, c, d);
      LeqTransitive(r.rel[a], r.rel[d], mine);
    }
    assert Leq(v, mine);
    LeqImpliesLex(v, mine);
  }

  lemma CellsOrderedPrefix(tr: seq<Event>, us: seq<Event>)
    requires tr <= us && CellsOrdered(us)
    ensures CellsOrdered(tr)
  {
    forall a: nat, b: nat, c: nat
      | a < b < |tr| && ChangesCell(tr[a], c) && tr[b].op in {CellRead(c), CellWrite(c)}
      ensures Before(tr, a, b)
    {
      assert us[a] == tr[a] && us[b] == tr[b];
      BeforePrefix(tr, us, a, b);
    }
  }

  lemma {:induction false} ExecuteGrows(r: Run, cmds: seq<(nat, Cmd)>)
    ensures r.tr <= Execute(r, cmds).tr
    ensures r.m.fault ==> Execute(r, cmds) == r
    decreases |cmds|
  {
    if cmds != [] {
      var (t, c) := cmds[0];
      if CmdOk(r.m, t, c) { ExecuteGrows(NextRun(r, t, c), cmds[1..]); } else { ExecuteGrows(r, cmds[1..]); }
    }
  }

  lemma {:induction false} NoAlarmFrom(r: Run, cmds: seq<(nat, Cmd)>)
    requires RunOk(r) && !r.m.fault && CellsOrdered(Execute(r, cmds).tr)
    ensures !Execute(r, cmds).m.fault
    decreases |cmds|
  {
    if cmds != [] {
      var (t, c) := cmds[0];
      if CmdOk(r.m, t, c) {
        var r' := NextRun(r, t, c);
        NextOk(r, t, c);
        ExecuteGrows(r', cmds[1..]);
        CellsOrderedPrefix(r'.tr, Execute(r', cmds[1..]).tr);
        if c.WithCell? || c.WithCellMut? {
          assert r'.tr[|r.tr|] == EventOf(r.m, t, c);
          forall a: nat | a < |r.tr| && ChangesCell(r.tr[a], c.c) ensures Before(r'.tr, a, |r.tr|) {
            assert r'.tr[a] == r.tr[a];
          }
          CellAccessPasses(r, t, c);
        }
        NoAlarmFrom(r', cmds[1..]);
      } else {
        NoAlarmFrom(r, cmds[1..]);
      }
    }
  }

  /** The causality assertions of cells never fail in an execution whose accesses are ordered by happens-before. */
  lemma NoFalseAlarm(maxThreads: nat, cmds: seq<(nat, Cmd)>)
    requires CellsOrdered(Execute(Start(maxThreads), cmds).tr)
    ensures !Execute(Start(maxThreads), cmds).m.fault
  {
    StartOk(maxThreads);
    NoAlarmFrom(Start(maxThreads), cmds);
  }

  // ----- which races go unreported -----

  /** An access passes exactly if the thread's clock covers the cell's version or has overtaken it. */
  lemma AccessExact(m: Mem, t: nat, c: Cmd)
    requires CmdOk(m, t, c) && (c.WithCell? || c.WithCellMut?)
    ensures var v, mine := m.cells[c.c], m.x.threads[t];
            !Do(m, t, c).fault <==> Leq(v, mine) || Overtaken(v, mine)
  {
    LexBeyondLeq(m.cells[c.c], m.x.threads[t]);
    if Leq(m.cells[c.c], m.x.threads[t]) { LeqImpliesLex(m.cells[c.c], m.x.threads[t]); }
  }

  /** A cell's version covers the clock of every change. */
  ghost predicate CellsCover(r: Run) {
    && |r.tr| == |r.rel|
    && (!r.m.fault ==>
          forall a: nat :: a < |r.tr| && (r.tr[a].op.CellNew? || r.tr[a].op.CellWrite?) ==>
            r.tr[a].op.c < |r.m.cells| && Leq(r.rel[a], r.m.cells[r.tr[a].op.c]))
  }

  lemma NextCover(r: Run, t: nat, c: Cmd)
    requires CellsCover(r) && CmdOk(r.m, t, c)
    ensures CellsCover(NextRun(r, t, c))
  {
    var r', n := NextRun(r, t, c), |r.tr|;
    if c.WithCellMut? { JoinIsLeast(r.m.cells[c.c], r.m.x.threads[t]); }
    if !r'.m.fault {
      forall a: nat | a < |r'.tr| && (r'.tr[a].op.CellNew? || r'.tr[a].op.CellWrite?)
        ensures r'.tr[a].op.c < |r'.m.cells| && Leq(r'.rel[a], r'.m.cells[r'.tr[a].op.c])
      {
        if a < n {
          assert r'.tr[a] == r.tr[a] && r'.rel[a] == r.rel[a];
          var k := r.tr[a].op.c;
          assert Leq(r.m.cells[k], r'.m.cells[k]);
          LeqTransitive(r.rel[a], r.m.cells[k], r'.m.cells[k]);
        }
      }
    }
  }

  lemma {:induction false} ExecuteCover(r: Run, cmds: seq<(nat, Cmd)>)
    requires CellsCover(r)
    ensures CellsCover(Execute(r, cmds))
    decreases |cmds|
  {
    hide CellsCover, CmdOk, NextRun;
    if cmds != [] {
      var (t, c) := cmds[0];
      if CmdOk(r.m, t, c) {
        NextCover(r, t, c);
        ExecuteCover(NextRun(r, t, c), cmds[1..]);
      } else {
        ExecuteCover(r, cmds[1..]);
      }
    }
  }

  /**
   * In every execution: an access that does not know of some change of the cell passes exactly
   * if its clock has overtaken the cell's version.
   */
  lemma UnknownChangePasses(maxThreads: nat, cmds: seq<(nat, Cmd)>, t: nat, c: Cmd, a: nat)
    requires var r := Execute(Start(maxThreads), cmds);
             && CmdOk(r.m, t, c) && (c.WithCell? || c.WithCellMut?)
             && |r.tr| == |r.rel| && a < |r.tr| && ChangesCell(r.tr[a], c.c) && !Leq(r.rel[a], r.m.x.threads[t])
    ensures var r := Execute(Start(maxThreads), cmds);
            !Do(r.m, t, c).fault <==> Overtaken(r.m.cells[c.c], r.m.x.threads[t])
  {
    var r := Execute(Start(maxThreads), cmds);
    ExecuteCover(Start(maxThreads), cmds);
    AccessExact(r.m, t, c);
    if Leq(r.m.cells[c.c], r.m.x.threads[t]) { LeqTransitive(r.rel[a], r.m.cells[c.c], r.m.x.threads[t]); }
    LexBeyondLeq(r.m.cells[c.c], r.m.x.threads[t]);
  }

  /** Thread 1 and thread 0 change a cell, with nothing to order them; thread 0 has stored to an atomic before. */
  function Race(): seq<(nat, Cmd)> {
    [(0, NewCell), (0, SpawnCmd), (1, WithCellMut(0)), (0, NewAtomic(0)), (0, StoreCmd(0, 1, Relaxed)),
     (0, WithCellMut(0))]
  }

  lemma OneCommand(r: Run, cmds: seq<(nat, Cmd)>, i: nat)
    requires i < |cmds| && CmdOk(r.m, cmds[i].0, cmds[i].1)
    ensures Execute(r, cmds[i..]) == Execute(NextRun(r, cmds[i].0, cmds[i].1), cmds[i + 1..])
  {
    assert cmds[i..][0] == cmds[i] && cmds[i..][1..] == cmds[i + 1..];
  }

  /** The events of the race. */
  function RaceEvents(): seq<Event> {
    [Event(0, CellNew(0)), Event(0, Spawn(1)), Event(1, CellWrite(0)), Event(0, NewLoc(0)),
     Event(0, Store(0, 1, Relaxed)), Event(0, CellWrite(0))]
  }

  /** An event with no edge out of it comes before nothing. */
  lemma {:induction false} NothingAfter(tr: seq<Event>, a: nat, b: nat)
    requires a < b < |tr| && forall c :: a < c <= b ==> !Edge(tr, a, c)
    ensures !Before(tr, a, b)
    decreases b
  {
    forall c: nat | a < c < b ensures !Before(tr, a, c) { NothingAfter(tr, a, c); }
  }

  lemma RaceUnordered()
    ensures !Before(RaceEvents(), 2, 5)
  {
    var tr := RaceEvents();
    assert tr[2] == Event(1, CellWrite(0)) && ReleasedWrite(tr[2]) == None;
    assert tr[3].t == 0 && tr[4].t == 0 && tr[5].t == 0;
    forall b | 2 < b <= 5 ensures !Edge(tr, 2, b) { assert b == 3 || b == 4 || b == 5; }
    NothingAfter(tr, 2, 5);
  }

  /** The run after its first `k` commands. */
  function Raced(k: nat): Run
    requires k <= 6
  {
    var threads := if k < 2 then [[0, 0]] else if k < 5 then [[0, 0], [0, 1]] else [[1, 0], [0, 1]];
    var w0, w1 := Write(0, [0, 0], [Some(0), None], false), Write(1, [0, 0], [Some(0), None], false);
    var locs := if k < 4 then [] else if k < 5 then [[w0]] else [[w0, w1]];
    var cells := if k < 1 then [] else if k < 3 then [[0, 0]] else if k < 6 then [[0, 1]] else [[1, 1]];
    Run(Mem(2, Clocks(threads, [0, 0]), locs, cells, false), RaceEvents()[..k],
        [[0, 0], [0, 0], [0, 1], [0, 0], [0, 0], [1, 0]][..k])
  }

  lemma RaceStarts()
    ensures Start(2) == Raced(0)
  {
    assert Zero(2) == [0, 0];
    assert Start(2).m == Raced(0).m;
  }

  lemma RaceCell()
    ensures CmdOk(Raced(0).m, 0, NewCell) && NextRun(Raced(0), 0, NewCell) == Raced(1)
  {
    var m, c := Raced(0).m, NewCell;
    assert Do(m, 0, c) == Raced(1).m;
    assert RaceEvents()[..0] + [EventOf(m, 0, c)] == RaceEvents()[..1];
    assert Raced(0).rel + [RelOf(m, 0, c)] == Raced(1).rel;
  }

  lemma RaceFirst()
    ensures CmdOk(Raced(2).m, 1, WithCellMut(0)) && NextRun(Raced(2), 1, WithCellMut(0)) == Raced(3)
  {
    var m, c := Raced(2).m, WithCellMut(0);
    assert [0, 0][1..] == [0] && [0, 1][1..] == [1];
    assert LexLeq([0, 0], [0, 1]) && Join([0, 0], [0, 1]) == [0, 1];
    assert Do(m, 1, c) == Raced(3).m;
    assert RaceEvents()[..2] + [EventOf(m, 1, c)] == RaceEvents()[..3];
    assert Raced(2).rel + [RelOf(m, 1, c)] == Raced(3).rel;
  }

  lemma RaceSecond()
    ensures CmdOk(Raced(5).m, 0, WithCellMut(0)) && NextRun(Raced(5), 0, WithCellMut(0)) == Raced(6)
  {
    var m, c := Raced(5).m, WithCellMut(0);
    assert LexLeq([0, 1], [1, 0]) && Join([0, 1], [1, 0]) == [1, 1];
    assert Do(m, 0, c) == Raced(6).m;
    assert RaceEvents()[..5] + [EventOf(m, 0, c)] == RaceEvents()[..6];
    assert Raced(5).rel + [RelOf(m, 0, c)] == Raced(6).rel;
  }

  lemma RaceSpawn()
    ensures CmdOk(Raced(1).m, 0, SpawnCmd) && NextRun(Raced(1), 0, SpawnCmd) == Raced(2)
  {
    var m := Raced(1).m;
    assert Inc(Join(Zero(2), [0, 0]), 1) == [0, 1];
    assert Do(m, 0, SpawnCmd) == Raced(2).m;
    assert RaceEvents()[..1] + [EventOf(m, 0, SpawnCmd)] == RaceEvents()[..2];
    assert Raced(1).rel + [RelOf(m, 0, SpawnCmd)] == Raced(2).rel;
  }

  lemma RaceAtomic()
    ensures CmdOk(Raced(3).m, 0, NewAtomic(0)) && NextRun(Raced(3), 0, NewAtomic(0)) == Raced(4)
  {
    var m := Raced(3).m;
    assert Zero(2) == [0, 0] && Touch([], 0, [0, 0]) == [Some(0), None];
    assert Do(m, 0, NewAtomic(0)) == Raced(4).m;
    assert RaceEvents()[..3] + [EventOf(m, 0, NewAtomic(0))] == RaceEvents()[..4];
    assert Raced(3).rel + [RelOf(m, 0, NewAtomic(0))] == Raced(4).rel;
  }

  lemma RaceStore()
    ensures CmdOk(Raced(4).m, 0, StoreCmd(0, 1, Relaxed)) && NextRun(Raced(4), 0, StoreCmd(0, 1, Relaxed)) == Raced(5)
  {
    var m, c := Raced(4).m, StoreCmd(0, 1, Relaxed);
    assert Touch([], 0, [0, 0]) == [Some(0), None];
    assert Inc([0, 0], 0) == [1, 0];
    var r := StoreOp(m.x, 0, m.locs[0], 1, Relaxed, 2);
    assert r.0.threads == [[1, 0], [0, 1]];
    assert r.1 == Raced(5).m.locs[0];
    assert Do(m, 0, c) == Raced(5).m;
    assert RaceEvents()[..4] + [EventOf(m, 0, c)] == RaceEvents()[..5];
    assert Raced(4).rel + [RelOf(m, 0, c)] == Raced(5).rel;
  }

  lemma {:induction false} RaceRuns(k: nat)
    requires k <= 6
    ensures Execute(Raced(k), Race()[k..]) == Raced(6)
    decreases 6 - k
  {
    hide Raced, Execute, CmdOk, NextRun;
    if k == 6 {
      assert Race()[6..] == [];
      NothingLeft(Raced(6));
    } else {
      match k {
        case 0 => RaceCell();
        case 1 => RaceSpawn();
        case 2 => RaceFirst();
        case 3 => RaceAtomic();
        case 4 => RaceStore();
        case _ => RaceSecond();
      }
      OneCommand(Raced(k), Race(), k);
      RaceRuns(k + 1);
    }
  }

  lemma NothingLeft(r: Run)
    ensures Execute(r, []) == r
  {
  }

  /** A race that no assertion reports: the first change does not come before the second, and both pass. */
  lemma RacePasses()
    ensures var r := Execute(Start(2), Race());
            && !r.m.fault && |r.tr| == 6
            && ChangesCell(r.tr[2], 0) && ChangesCell(r.tr[5], 0) && !Before(r.tr, 2, 5)
  {
    hide Execute, Before, Start;
    RaceStarts();
    RaceRuns(0);
    assert Race()[0..] == Race() && RaceEvents()[..6] == RaceEvents();
    RaceUnordered();
  }

  /**
   * In every execution: an access that some change of the cell does not happen before goes
   * unreported exactly if the thread's clock covers the cell's version all the same, or has
   * overtaken it.
   */
  lemma UnorderedPasses(maxThreads: nat, cmds: seq<(nat, Cmd)>, t: nat, c: Cmd, a: nat)
    requires var r := Execute(Start(maxThreads), cmds);
             && CmdOk(r.m, t, c) && (c.WithCell? || c.WithCellMut?)
             && a < |r.tr| && ChangesCell(r.tr[a], c.c) && !Before(NextRun(r, t, c).tr, a, |r.tr|)
    ensures var r := Execute(Start(maxThreads), cmds);
            var v, mine := r.m.cells[c.c], r.m.x.threads[t];
            !Do(r.m, t, c).fault <==> Leq(v, mine) || Overtaken(v, mine)
  {
    AccessExact(Execute(Start(maxThreads), cmds).m, t, c);
  }

  // ----- a race that the clocks do not see -----

  /** Thread 0 starts thread 1, and both change a cell.  Neither starting a thread nor the change ticks a clock. */
  function Untold(): seq<(nat, Cmd)> { [(0, NewCell), (0, SpawnCmd), (0, WithCellMut(0)), (1, WithCellMut(0))] }

  function UntoldEvents(): seq<Event> {
    [Event(0, CellNew(0)), Event(0, Spawn(1)), Event(0, CellWrite(0)), Event(1, CellWrite(0))]
  }

  /** The run after its first `k` commands. */
  function UntoldAt(k: nat): Run
    requires 2 <= k <= 4
  {
    Run(Mem(2, Clocks([[0, 0], [0, 1]], [0, 0]), [], if k < 4 then [[0, 0]] else [[0, 1]], false), UntoldEvents()[..k],
        [[0, 0], [0, 0], [0, 0], [0, 1]][..k])
  }

  lemma UntoldUnordered()
    ensures !Before(UntoldEvents(), 2, 3)
  {
    var tr := UntoldEvents();
    assert tr[2] == Event(0, CellWrite(0)) && ReleasedWrite(tr[2]) == None && tr[3].t == 1;
    NothingAfter(tr, 2, 3);
  }

  lemma UntoldStarts()
    ensures Execute(Start(2), Untold()) == Execute(UntoldAt(2), Untold()[2..])
  {
    var cmds := Untold();
    RaceStarts();
    RaceCell();
    RaceSpawn();
    OneCommand(Raced(0), cmds, 0);
    OneCommand(Raced(1), cmds, 1);
    assert cmds[0..] == cmds;
    assert RaceEvents()[..2] == UntoldEvents()[..2];
    assert Raced(2).rel == UntoldAt(2).rel;
    hide Execute;
  }

  lemma UntoldFirst()
    ensures CmdOk(UntoldAt(2).m, 0, WithCellMut(0)) && NextRun(UntoldAt(2), 0, WithCellMut(0)) == UntoldAt(3)
  {
    var m, c := UntoldAt(2).m, WithCellMut(0);
    assert LexLeq([0, 0], [0, 0]) && Join([0, 0], [0, 0]) == [0, 0];
    assert Do(m, 0, c) == UntoldAt(3).m;
    assert UntoldEvents()[..2] + [EventOf(m, 0, c)] == UntoldEvents()[..3];
    assert UntoldAt(2).rel + [RelOf(m, 0, c)] == UntoldAt(3).rel;
  }

  lemma UntoldSecond()
    ensures CmdOk(UntoldAt(3).m, 1, WithCellMut(0)) && NextRun(UntoldAt(3), 1, WithCellMut(0)) == UntoldAt(4)
  {
    var m, c := UntoldAt(3).m, WithCellMut(0);
    assert [0, 0][1..] == [0] && [0, 1][1..] == [1];
    assert LexLeq([0, 0], [0, 1]) && Join([0, 0], [0, 1]) == [0, 1];
    assert Do(m, 1, c) == UntoldAt(4).m;
    assert UntoldEvents()[..3] + [EventOf(m, 1, c)] == UntoldEvents()[..4];
    assert UntoldAt(3).rel + [RelOf(m, 1, c)] == UntoldAt(4).rel;
  }

  lemma UntoldEnds()
    ensures Execute(UntoldAt(2), Untold()[2..]) == UntoldAt(4)
  {
    hide UntoldAt, Execute, CmdOk, NextRun;
    UntoldFirst();
    UntoldSecond();
    OneCommand(UntoldAt(2), Untold(), 2);
    OneCommand(UntoldAt(3), Untold(), 3);
    assert Untold()[4..] == [];
    NothingLeft(UntoldAt(4));
  }

  /** A race that passes although no clock has overtaken another: the second thread's clock covers the first change. */
  lemma CoveredRacePasses()
    ensures var r := Execute(Start(2), Untold());
            && !r.m.fault && |r.tr| == 4
            && ChangesCell(r.tr[2], 0) && ChangesCell(r.tr[3], 0) && !Before(r.tr, 2, 3) && Leq(r.rel[2], r.rel[3])
  {
    hide Execute, Before, Start;
    UntoldStarts();
    UntoldEnds();
    assert UntoldEvents()[..4] == UntoldEvents();
    UntoldUnordered();
  }
}
