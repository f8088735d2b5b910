/**
 * The simulated memory of the checker.  Each location keeps the history of its writes; a clock
 * per thread limits which old writes a load may still return.
 */
module Memory {
  import opened Wrappers
  import opened VersionVectors

  datatype Order = Relaxed | Acquire | Release | AcqRel | SeqCst

  predicate Acquiring(o: Order) { o == Acquire || o == AcqRel || o == SeqCst }

  predicate Releasing(o: Order) { o == Release || o == AcqRel || o == SeqCst }

  /** One entry of a history: the value, the clock that acquiring it passes on, and who saw it first when. */
  datatype Write = Write(value: nat, hb: Clock, seen: seq<Option<nat>>, sc: bool)

  /** The clocks of the threads and the clock of the sequentially consistent operations. */
  datatype Clocks = Clocks(threads: seq<Clock>, sc: Clock)

  predicate WfClocks(x: Clocks, n: nat) {
    |x.threads| <= n && |x.sc| == n && forall t :: 0 <= t < |x.threads| ==> |x.threads[t]| == n
  }

  predicate WfWrite(w: Write, n: nat) { |w.hb| == n && |w.seen| <= n }

  predicate WfWrites(ws: seq<Write>, n: nat) {
    ws != [] && forall i :: 0 <= i < |ws| ==> WfWrite(ws[i], n)
  }

  // ----- synchronisation -----

  function SetClock(x: Clocks, t: nat, c: Clock): Clocks
    requires t < |x.threads|
  {
    x.(threads := x.threads[t := c])
  }

  /** `Execution::seq_cst`. */
  function SeqCstPoint(x: Clocks, t: nat): Clocks
    requires t < |x.threads| && |x.sc| == |x.threads[t]|
  {
    var c := Join(x.threads[t], x.sc);
    Clocks(x.threads[t := c], Join(x.sc, c))
  }

  /** `Synchronize::sync_read` on a write whose clock is `hb`. */
  function SyncRead(x: Clocks, t: nat, hb: Clock, o: Order): Clocks
    requires t < |x.threads| && |x.sc| == |x.threads[t]| == |hb|
  {
    if !Acquiring(o) then x
    else
      var y := SetClock(x, t, Join(x.threads[t], hb));
      if o == SeqCst then SeqCstPoint(y, t) else y
  }

  /** The clock of a new write by `sync_write`: that of the write before it, and the writer's when releasing. */
  function WriteClock(x: Clocks, t: nat, hb: Clock, o: Order): Clock
    requires t < |x.threads| && |x.threads[t]| == |hb|
  {
    if Releasing(o) then Join(hb, x.threads[t]) else hb
  }

  function SyncWrite(x: Clocks, t: nat, o: Order): Clocks
    requires t < |x.threads| && |x.sc| == |x.threads[t]|
  {
    if o == SeqCst then SeqCstPoint(x, t) else x
  }

  /** `active_causality_inc`, at the end of every atomic operation. */
  function Tick(x: Clocks, t: nat): Clocks
    requires t < |x.threads| && t < |x.threads[t]|
  {
    SetClock(x, t, Inc(x.threads[t], t))
  }

  // ----- what a thread has seen -----

  function Resize(seen: seq<Option<nat>>, n: nat): seq<Option<nat>> {
    if |seen| < n then seen + seq(n - |seen|, i => None) else seen
  }

  /** `FirstSeen::touch` by thread `t` with clock `c`. */
  function Touch(seen: seq<Option<nat>>, t: nat, c: Clock): seq<Option<nat>>
    requires t < |c|
  {
    var s := Resize(seen, |c|);
    if s[t] == None then s[t := Some(c[t])] else s
  }

  /** `FirstSeen::is_seen_by` a thread with clock `c`. */
  predicate SeenBy(seen: seq<Option<nat>>, c: Clock) {
    exists u :: 0 <= u < |c| && u < |seen| && seen[u].Some? && seen[u].value <= c[u]
  }

  /** The scan for older candidates ends at this write. */
  predicate Stops(w: Write, c: Clock, o: Order) { (o == SeqCst && w.sc) || SeenBy(w.seen, c) }

  /** The oldest write that a load may return, scanning down from position `k`. */
  function Oldest(ws: seq<Write>, k: nat, c: Clock, o: Order): (i: nat)
    requires k < |ws|
    ensures i <= k
    ensures forall j :: i < j <= k ==> !Stops(ws[j], c, o)
    ensures i == 0 || Stops(ws[i], c, o)
  {
    if k == 0 || Stops(ws[k], c, o) then k else Oldest(ws, k - 1, c, o)
  }

  /** May a load with clock `c` return write `i`? */
  predicate Readable(ws: seq<Write>, i: nat, c: Clock, o: Order)
    requires ws != []
  {
    Oldest(ws, |ws| - 1, c, o) <= i < |ws|
  }

  // ----- the atomic operations on one location -----

  function TouchAt(ws: seq<Write>, i: nat, t: nat, c: Clock): seq<Write>
    requires i < |ws| && t < |c|
  {
    ws[i := ws[i].(seen := Touch(ws[i].seen, t, c))]
  }

  predicate Current(x: Clocks, t: nat, n: nat) { WfClocks(x, n) && t < |x.threads| }

  function LoadOp(x: Clocks, t: nat, ws: seq<Write>, i: nat, o: Order, n: nat): (Clocks, seq<Write>)
    requires Current(x, t, n) && WfWrites(ws, n) && i < |ws|
  {
    (Tick(SyncRead(x, t, ws[i].hb, o), t), TouchAt(ws, i, t, x.threads[t]))
  }

  /** `do_write`: the clocks are those after the read half, if there is one. */
  function NewWrite(x: Clocks, t: nat, ws: seq<Write>, v: nat, o: Order, n: nat): Write
    requires Current(x, t, n) && WfWrites(ws, n)
  {
    Write(v, WriteClock(x, t, ws[|ws| - 1].hb, o), Touch([], t, x.threads[t]), o == SeqCst)
  }

  function StoreOp(x: Clocks, t: nat, ws: seq<Write>, v: nat, o: Order, n: nat): (Clocks, seq<Write>)
    requires Current(x, t, n) && WfWrites(ws, n)
  {
    (Tick(SyncWrite(x, t, o), t), ws + [NewWrite(x, t, ws, v, o, n)])
  }

  /** A read-modify-write that stores `v`: it reads the newest write. */
  function RmwOp(x: Clocks, t: nat, ws: seq<Write>, v: nat, o: Order, n: nat): (Clocks, seq<Write>)
    requires Current(x, t, n) && WfWrites(ws, n)
  {
    var ws1 := TouchAt(ws, |ws| - 1, t, x.threads[t]);
    var x1 := SyncRead(x, t, ws[|ws| - 1].hb, o);
    (Tick(SyncWrite(x1, t, o), t), ws1 + [NewWrite(x1, t, ws1, v, o, n)])
  }

  // ----- the whole memory -----

  /** `cells` are the versions of the causal cells; `fault` is a failed causality assertion. */
  datatype Mem = Mem(n: nat, x: Clocks, locs: seq<seq<Write>>, cells: seq<Clock>, fault: bool)

  predicate WfMem(m: Mem) {
    && WfClocks(m.x, m.n)
    && (forall l :: 0 <= l < |m.locs| ==> WfWrites(m.locs[l], m.n))
    && (forall c :: 0 <= c < |m.cells| ==> |m.cells[c]| == m.n)
  }

  /**
   * What one thread does; for a load, the write that the path makes it return, and for a
   * read-modify-write the value stored.
   */
  datatype Cmd =
    | NewAtomic(v: nat)
    | LoadCmd(loc: nat, i: nat, o: Order)
    | StoreCmd(loc: nat, v: nat, o: Order)
    | RmwCmd(loc: nat, v: nat, o: Order)
    | CasCmd(loc: nat, current: nat, v: nat, success: Order, failure: Order)
    | SpawnCmd
    | UnparkCmd(u: nat)
    | SeqCstCmd
    | NewCell
    | WithCell(c: nat)
    | WithCellMut(c: nat)

  predicate CmdOk(m: Mem, t: nat, c: Cmd) {
    && WfMem(m) && !m.fault && t < |m.x.threads|
    && match c
       case NewAtomic(_) => true
       case LoadCmd(l, i, o) => l < |m.locs| && Readable(m.locs[l], i, m.x.threads[t], o)
       case StoreCmd(l, _, _) => l < |m.locs|
       case RmwCmd(l, _, _) => l < |m.locs|
       case CasCmd(l, _, _, _, _) => l < |m.locs|
       case SpawnCmd => |m.x.threads| < m.n
       case UnparkCmd(u) => u < |m.x.threads|
       case SeqCstCmd => true
       case NewCell => true
       case WithCell(c) => c < |m.cells|
       case WithCellMut(c) => c < |m.cells|
  }

  function SetLoc(m: Mem, l: nat, r: (Clocks, seq<Write>)): Mem
    requires l < |m.locs|
  {
    m.(x := r.0, locs := m.locs[l := r.1])
  }

  function Do(m: Mem, t: nat, c: Cmd): Mem
    requires CmdOk(m, t, c)
  {
    var mine := m.x.threads[t];
    match c
    case NewAtomic(v) => m.(locs := m.locs + [[Write(v, Zero(m.n), Touch([], t, mine), false)]])
    case LoadCmd(l, i, o) => SetLoc(m, l, LoadOp(m.x, t, m.locs[l], i, o, m.n))
    case StoreCmd(l, v, o) => SetLoc(m, l, StoreOp(m.x, t, m.locs[l], v, o, m.n))
    case RmwCmd(l, v, o) => SetLoc(m, l, RmwOp(m.x, t, m.locs[l], v, o, m.n))
    case CasCmd(l, current, v, success, failure) =>
      var ws := m.locs[l];
      if ws[|ws| - 1].value == current then SetLoc(m, l, RmwOp(m.x, t, ws, v, success, m.n))
      else SetLoc(m, l, LoadOp(m.x, t, ws, |ws| - 1, failure, m.n))
    case SpawnCmd =>
      var u := |m.x.threads|;
      m.(x := m.x.(threads := m.x.threads + [Inc(Join(Zero(m.n), mine), u)]))
    case UnparkCmd(u) =>
      if u == t then m else m.(x := SetClock(m.x, u, Join(m.x.threads[u], mine)))
    case SeqCstCmd => m.(x := SeqCstPoint(m.x, t))
    case NewCell => m.(cells := m.cells + [mine])
    case WithCell(c) => m.(fault := !LexLeq(m.cells[c], mine))
    case WithCellMut(c) =>
      if LexLeq(m.cells[c], mine) then m.(cells := m.cells[c := Join(m.cells[c], mine)]) else m.(fault := true)
  }

  function InitMem(maxThreads: nat): Mem {
    Mem(maxThreads, Clocks(if maxThreads == 0 then [] else [Zero(maxThreads)], Zero(maxThreads)), [], [], false)
  }
}
