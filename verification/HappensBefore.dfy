/**
 * Happens-before over the events of an execution, defined without any clock, and runs of the
 * simulated memory that record their events.
 */
module HappensBefore {
  import opened Wrappers
  import opened VersionVectors
  import opened Memory

  /** What a thread did.  `i` is the position, in the location's history, of the write that was read or stored. */
  datatype Op =
    | NewLoc(loc: nat)
    | Load(loc: nat, i: nat, o: Order)
    | Store(loc: nat, i: nat, o: Order)
    | Rmw(loc: nat, i: nat, o: Order)       // read `i` and stored `i + 1`
    | Spawn(u: nat)
    | Unpark(u: nat)
    | SeqCstFence
    | CellNew(c: nat)
    | CellRead(c: nat)
    | CellWrite(c: nat)

  datatype Event = Event(t: nat, op: Op)

  // ----- what an event does, by its operation alone -----

  /** Did the event read or store write `k` of location `l`? */
  predicate Touches(e: Event, l: nat, k: nat) {
    match e.op
    case NewLoc(loc) => loc == l && k == 0
    case Load(loc, i, _) => loc == l && k == i
    case Store(loc, i, _) => loc == l && k == i
    case Rmw(loc, i, _) => loc == l && (k == i || k == i + 1)
    case _ => false
  }

  /** Did it store write `k` of location `l`? */
  predicate Stores(e: Event, l: nat, k: nat) {
    match e.op
    case NewLoc(loc) => loc == l && k == 0
    case Store(loc, i, _) => loc == l && k == i
    case Rmw(loc, i, _) => loc == l && k == i + 1
    case _ => false
  }

  /** Did it read write `k` of location `l`? */
  predicate Reads(e: Event, l: nat, k: nat) {
    match e.op
    case Load(loc, i, _) => loc == l && k == i
    case Rmw(loc, i, _) => loc == l && k == i
    case _ => false
  }

  predicate HasOrder(op: Op) { op.Load? || op.Store? || op.Rmw? }

  predicate IsSeqCst(e: Event) { e.op == SeqCstFence || (HasOrder(e.op) && e.op.o == SeqCst) }

  /** Location and position of the write that an event stores with release order. */
  function ReleasedWrite(e: Event): Option<(nat, nat)> {
    if !HasOrder(e.op) || !Releasing(e.op.o) then None
    else match e.op
         case Store(l, i, _) => Some((l, i))
         case Rmw(l, i, _) => Some((l, i + 1))
         case _ => None
  }

  function AcquiredWrite(e: Event): Option<(nat, nat)> {
    if !HasOrder(e.op) || !Acquiring(e.op.o) then None
    else match e.op
         case Load(l, i, _) => Some((l, i))
         case Rmw(l, i, _) => Some((l, i))
         case _ => None
  }

  // ----- happens-before -----

  /** `b` acquires a write that `a` released, or a later write of the same location. */
  predicate SyncEdge(a: Event, b: Event) {
    var x, y := ReleasedWrite(a), AcquiredWrite(b);
    x.Some? && y.Some? && x.value.0 == y.value.0 && x.value.1 <= y.value.1
  }

  /** Program order, creation and waking of a thread: `b` starts after `a`. */
  predicate StartEdge(a: Event, b: Event) {
    a.t == b.t || (a.op.Spawn? && a.op.u == b.t) || (a.op.Unpark? && a.op.u == b.t)
  }

  /** `b` follows, in its thread, a sequentially consistent operation that comes after the one of `a`. */
  ghost predicate SeqCstEdge(tr: seq<Event>, a: nat, b: nat)
    requires a < b < |tr|
  {
    IsSeqCst(tr[a]) && exists m :: a < m < b && IsSeqCst(tr[m]) && tr[m].t == tr[b].t
  }

  ghost predicate Edge(tr: seq<Event>, a: nat, b: nat)
    requires a < b < |tr|
  {
    StartEdge(tr[a], tr[b]) || SyncEdge(tr[a], tr[b]) || SeqCstEdge(tr, a, b)
  }

  /** The transitive closure of the edges. */
  ghost predicate Before(tr: seq<Event>, a: nat, b: nat)
    requires b < |tr|
    decreases b
  {
    a < b && (Edge(tr, a, b) || exists c: nat :: a < c < b && Before(tr, a, c) && Edge(tr, c, b))
  }

  lemma {:induction false} BeforePrefix(tr: seq<Event>, us: seq<Event>, a: nat, b: nat)
    requires tr <= us && b < |tr|
    ensures Before(tr, a, b) <==> Before(us, a, b)
    decreases b
  {
    forall c: nat | a < c < b ensures Before(tr, a, c) <==> Before(us, a, c) { BeforePrefix(tr, us, a, c); }
    if a < b {
      EdgePrefix(tr, us, a, b);
      forall c: nat | a < c < b ensures Edge(tr, c, b) <==> Edge(us, c, b) { EdgePrefix(tr, us, c, b); }
    }
  }

  lemma EdgePrefix(tr: seq<Event>, us: seq<Event>, a: nat, b: nat)
    requires tr <= us && a < b < |tr|
    ensures Edge(tr, a, b) <==> Edge(us, a, b)
  {
    assert us[a] == tr[a] && us[b] == tr[b];
    if SeqCstEdge(tr, a, b) {
      var m :| a < m < b && IsSeqCst(tr[m]) && tr[m].t == tr[b].t;
      assert us[m] == tr[m];
    }
    if SeqCstEdge(us, a, b) {
      var m :| a < m < b && IsSeqCst(us[m]) && us[m].t == us[b].t;
      assert us[m] == tr[m];
    }
  }

  // ----- runs of the memory -----

  /** The memory, the events so far, and for each event the clock it could pass on. */
  datatype Run = Run(m: Mem, tr: seq<Event>, rel: seq<Clock>)

  /** The event that command `c` of thread `t` is. */
  function EventOf(m: Mem, t: nat, c: Cmd): Event
    requires CmdOk(m, t, c)
  {
    Event(t, match c
             case NewAtomic(_) => NewLoc(|m.locs|)
             case LoadCmd(l, i, o) => Load(l, i, o)
             case StoreCmd(l, _, o) => Store(l, |m.locs[l]|, o)
             case RmwCmd(l, _, o) => Rmw(l, |m.locs[l]| - 1, o)
             case CasCmd(l, current, _, success, failure) =>
               var last := |m.locs[l]| - 1;
               if m.locs[l][last].value == current then Rmw(l, last, success) else Load(l, last, failure)
             case SpawnCmd => Spawn(|m.x.threads|)
             case UnparkCmd(u) => Unpark(u)
             case SeqCstCmd => SeqCstFence
             case NewCell => CellNew(|m.cells|)
             case WithCell(c) => CellRead(c)
             case WithCellMut(c) => CellWrite(c))
  }

  /**
   * The thread's clock where the operation releases: after what it acquires, before it joins the
   * sequentially consistent clock of its own store.
   */
  function RelOf(m: Mem, t: nat, c: Cmd): Clock
    requires CmdOk(m, t, c)
  {
    var e := EventOf(m, t, c);
    if e.op.Load? || e.op.Rmw? then SyncRead(m.x, t, m.locs[e.op.loc][e.op.i].hb, e.op.o).threads[t]
    else m.x.threads[t]
  }

  function NextRun(r: Run, t: nat, c: Cmd): Run
    requires CmdOk(r.m, t, c)
  {
    Run(Do(r.m, t, c), r.tr + [EventOf(r.m, t, c)], r.rel + [RelOf(r.m, t, c)])
  }

  /** The run of a list of commands; one that is not possible when its turn comes does nothing. */
  function Execute(r: Run, cmds: seq<(nat, Cmd)>): Run
    decreases |cmds|
  {
    if cmds == [] then r
    else Execute(if CmdOk(r.m, cmds[0].0, cmds[0].1) then NextRun(r, cmds[0].0, cmds[0].1) else r, cmds[1..])
  }

  function Start(maxThreads: nat): Run { Run(InitMem(maxThreads), [], []) }
}
