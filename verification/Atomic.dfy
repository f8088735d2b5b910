/** The simulated atomics as the checker executes them: histories and clocks updated in place. */
module SimulatedAtomics {
  import opened Wrappers
  import opened VersionVectors
  import opened Memory
  import opened MemoryEffects
  import opened MemoryOwners
  import opened MemoryValues
  import opened PathModel
  import opened ExplorationPath

  /** The part of an execution that memory operations use: clocks, the active thread and the path. */
  class Execution {
    const maxThreads: nat
    const path: Path
    var threads: seq<Clock>
    var sc: Clock
    var active: nat

    ghost predicate Valid()
      reads this
    {
      Current(Value(), active, maxThreads)
    }

    function Value(): Clocks
      reads this
    {
      Clocks(threads, sc)
    }

    /** `Execution::new`: the root thread is created and active. */
    constructor (max: nat)
      requires max > 0
      ensures Valid() && active == 0 && maxThreads == max && Value() == InitMem(max).x
      ensures fresh(path) && path.Valid() && path.View() == [] && path.pos == 0
    {
      maxThreads := max;
      threads, sc, active := [Zero(max)], Zero(max), 0;
      path := new Path();
    }

    /** `None` is the panic when there are `maxThreads` threads already. */
    method NewThread() returns (id: Option<nat>)
      requires Valid()
      modifies this`threads
      ensures Valid()
      ensures id == if |old(threads)| < maxThreads then Some(|old(threads)|) else None
      ensures threads == if id.Some? then old(threads) + [Inc(Join(Zero(maxThreads), old(threads)[active]), id.value)]
                         else old(threads)
      ensures id.Some? ==> Leq(old(threads)[active], threads[id.value])
      ensures id.Some? && ClocksOwned(old(Value())) ==>
                forall s :: 0 <= s < |old(threads)| ==> !Leq(threads[id.value], threads[s])
    {
      if |threads| >= maxThreads { return None; }
      if ClocksOwned(Value()) { SpawnOrders(Value(), active, maxThreads); }
      var u := |threads|;
      var c := Zero(maxThreads);
      c := Join(c, threads[active]);
      c := Inc(c, u);
      threads := threads + [c];
      id := Some(u);
    }

    method UnparkThread(id: nat)
      requires Valid() && id < |threads|
      modifies this`threads
      ensures Valid()
      ensures threads == if id == active then old(threads)
                         else old(threads)[id := Join(old(threads)[id], old(threads)[active])]
      ensures Leq(old(threads)[active], threads[id]) && Leq(old(threads)[id], threads[id])
      ensures forall c :: Leq(old(threads)[active], c) && Leq(old(threads)[id], c) ==> Leq(threads[id], c)
    {
      if id == active { return; }
      threads := threads[id := Join(threads[id], threads[active])];
    }

    method SeqCst()
      requires Valid()
      modifies this`threads, this`sc
      ensures Valid() && Value() == SeqCstPoint(old(Value()), active)
      ensures Leq(old(sc), threads[active]) && Leq(old(threads)[active], threads[active]) && sc == threads[active]
    {
      threads := threads[active := Join(threads[active], sc)];
      sc := Join(sc, threads[active]);
    }

    method SyncRead(hb: Clock, o: Order)
      requires Valid() && |hb| == maxThreads
      modifies this`threads, this`sc
      ensures Valid() && Value() == Memory.SyncRead(old(Value()), active, hb, o)
      ensures Acquiring(o) ==> Leq(hb, threads[active])
      ensures o == Order.SeqCst ==> Leq(old(sc), threads[active]) && Leq(threads[active], sc)
      ensures OnlyOwn(old(Value()), Value(), active, o)
      ensures forall u :: 0 <= u < maxThreads ==> threads[active][u] == Learnt(old(threads)[active], hb, old(sc), o, u)
    {
      if Acquiring(o) {
        threads := threads[active := Join(threads[active], hb)];
        if o == Order.SeqCst { SeqCst(); }
      }
    }

    method SyncWrite(hb: Clock, o: Order) returns (hb': Clock)
      requires Valid() && |hb| == maxThreads
      modifies this`threads, this`sc
      ensures Valid() && Value() == Memory.SyncWrite(old(Value()), active, o)
      ensures hb' == WriteClock(old(Value()), active, hb, o)
      ensures Leq(hb, hb') && (Releasing(o) ==> Leq(old(threads)[active], hb'))
      ensures OnlyOwn(old(Value()), Value(), active, o)
      ensures forall u :: 0 <= u < maxThreads ==>
                && hb'[u] == (match o
                              case Relaxed => hb[u]
                              case Acquire => hb[u]
                              case _ => Max(hb[u], old(threads)[active][u]))
                && threads[active][u] == LearntStoring(old(threads)[active], old(sc), o, u)
    {
      hb' := hb;
      if Releasing(o) { hb' := Join(hb, threads[active]); }
      if o == Order.SeqCst { SeqCst(); }
    }

    method CausalityInc()
      requires Valid()
      modifies this`threads
      ensures Valid() && Value() == Tick(old(Value()), active)
      ensures ClocksOwned(old(Value())) ==>
                forall s :: 0 <= s < |threads| && s != active ==> !Leq(threads[active], threads[s])
    {
      if ClocksOwned(Value()) { TickFresh(Value(), active, maxThreads); }
      threads := threads[active := Inc(threads[active], active)];
    }
  }

  /** `FirstSeen::is_seen_by`, a scan over the entries of the clock. */
  method IsSeenBy(seen: seq<Option<nat>>, c: Clock) returns (b: bool)
    ensures b <==> SeenBy(seen, c)
  {
    for u := 0 to |c|
      invariant forall v :: 0 <= v < u && v < |seen| && seen[v].Some? ==> c[v] < seen[v].value
    {
      if u < |seen| && seen[u].Some? && seen[u].value <= c[u] { return true; }
    }
    b := false;
  }

  /** `FirstSeen::touch`, growing the vector as needed. */
  method TouchSeen(seen: seq<Option<nat>>, t: nat, c: Clock) returns (s: seq<Option<nat>>)
    requires t < |c|
    ensures s == Touch(seen, t, c)
  {
    s := seen;
    while |s| < |c|
      invariant |s| <= |Resize(seen, |c|)| && s == Resize(seen, |c|)[..|s|] && |seen| <= |s|
    {
      s := s + [None];
    }
    assert s == Resize(seen, |c|);
    if s[t] == None { s := s[t := Some(c[t])]; }
  }

  /** The writes a load may return, newest first. */
  function Candidates(ws: seq<Write>, c: Clock, o: Order): (s: seq<nat>)
    requires ws != []
    ensures s != [] && s[0] == |ws| - 1
  {
    seq(|ws| - Oldest(ws, |ws| - 1, c, o), i => |ws| - 1 - i)
  }

  /** They are exactly the readable writes, and no write is offered twice. */
  lemma CandidatesReadable(ws: seq<Write>, c: Clock, o: Order)
    requires ws != []
    ensures forall i :: i in Candidates(ws, c, o) <==> 0 <= i && Readable(ws, i, c, o)
    ensures forall i, j :: 0 <= i < j < |Candidates(ws, c, o)| ==> Candidates(ws, c, o)[i] > Candidates(ws, c, o)[j]
    ensures GoodNode(Writes(Candidates(ws, c, o))) && NoDuplicates(Writes(Candidates(ws, c, o)))
  {
    var s := Candidates(ws, c, o);
    forall i | 0 <= i && Readable(ws, i, c, o) ensures i in s { assert s[|ws| - 1 - i] == i; }
  }

  /** The end of the downward scan is the oldest readable write. */
  lemma {:induction false} OldestUnique(ws: seq<Write>, k: nat, i: nat, c: Clock, o: Order)
    requires i <= k < |ws| && (i == 0 || Stops(ws[i], c, o)) && forall j :: i < j <= k ==> !Stops(ws[j], c, o)
    ensures Oldest(ws, k, c, o) == i
  {
    if i < k { OldestUnique(ws, k - 1, i, c, o); }
  }

  /** The scan of `pick_write`: newest first, down to and including the first write within the thread's causality. */
  method Seed(ws: seq<Write>, c: Clock, o: Order) returns (seed: seq<nat>)
    requires ws != []
    ensures seed == Candidates(ws, c, o)
  {
    var inCausality := false;
    var k: nat := |ws|;
    seed := [];
    while k > 0 && !inCausality
      invariant k <= |ws| && |seed| == |ws| - k
      invariant forall j :: 0 <= j < |seed| ==> seed[j] == |ws| - 1 - j
      invariant inCausality ==> k < |ws| && Stops(ws[k], c, o)
      invariant forall j :: k < j < |ws| ==> !Stops(ws[j], c, o)
      invariant k < |ws| && !inCausality ==> !Stops(ws[k], c, o)
      decreases k
    {
      k := k - 1;
      inCausality := o == Order.SeqCst && ws[k].sc;
      var seenBy := IsSeenBy(ws[k].seen, c);
      inCausality := inCausality || seenBy;
      seed := seed + [k];
    }
    OldestUnique(ws, |ws| - 1, k, c, o);
  }

  class Atomic {
    var writes: seq<Write>

    ghost predicate Valid(n: nat)
      reads this
    {
      WfWrites(writes, n)
    }

    constructor (ex: Execution, v: nat)
      requires ex.Valid()
      ensures Valid(ex.maxThreads)
      ensures writes == [Write.Write(v, Zero(ex.maxThreads), Touch([], ex.active, ex.threads[ex.active]), false)]
    {
      var seen := TouchSeen([], ex.active, ex.threads[ex.active]);
      writes := [Write.Write(v, Zero(ex.maxThreads), seen, false)];
    }

    /** `pick_write`: the path says which of the readable writes to return. */
    method PickWrite(ex: Execution, o: Order) returns (i: nat)
      requires ex.Valid() && Valid(ex.maxThreads) && ex.path.Valid()
      requires ex.path.pos < |ex.path.View()| ==>
                 Shape(Writes(Candidates(writes, ex.threads[ex.active], o)), ex.path.View()[ex.path.pos])
      modifies ex.path
      ensures Readable(writes, i, ex.threads[ex.active], o)
      ensures ex.path.Valid() && ex.path.pos == old(ex.path.pos) + 1
      ensures var v, p := old(ex.path.View()), old(ex.path.pos);
              var seed := Candidates(writes, ex.threads[ex.active], o);
              if p == |v| then ex.path.View() == v + [Writes(seed)] && i == |writes| - 1
              else ex.path.View() == v && i == v[p].ws[0]
    {
      var seed := Seed(writes, ex.threads[ex.active], o);
      CandidatesReadable(writes, ex.threads[ex.active], o);
      var r := ex.path.BranchWrite(seed);
      i := r.value;
      assert i in seed;
    }

    method Load(ex: Execution, o: Order) returns (v: nat, ghost i: nat)
      requires ex.Valid() && Valid(ex.maxThreads) && ex.path.Valid()
      requires ex.path.pos < |ex.path.View()| ==>
                 Shape(Writes(Candidates(writes, ex.threads[ex.active], o)), ex.path.View()[ex.path.pos])
      modifies this, ex`threads, ex`sc, ex.path
      ensures ex.Valid() && Valid(ex.maxThreads) && ex.path.Valid()
      ensures Readable(old(writes), i, old(ex.threads[ex.active]), o) && v == old(writes)[i].value
      ensures (ex.Value(), writes) == LoadOp(old(ex.Value()), ex.active, old(writes), i, o, ex.maxThreads)
      ensures Loaded(old(ex.Value()), old(writes), ex.Value(), writes, ex.active, i, o, ex.maxThreads)
      ensures Values(writes) == old(Values(writes))
    {
      hide Loaded, Values, Readable, Candidates;
      ghost var x, ws := ex.Value(), writes;
      var k := PickWrite(ex, o);
      i := k;
      var seen := TouchSeen(writes[k].seen, ex.active, ex.threads[ex.active]);
      writes := writes[k := writes[k].(seen := seen)];
      ex.SyncRead(writes[k].hb, o);
      v := writes[k].value;
      ex.CausalityInc();
      LoadEffect(x, ex.active, ws, i, o, ex.maxThreads);
      LoadValues(x, ex.active, ws, i, o, ex.maxThreads);
    }

    /** `do_write`. */
    method DoWrite(ex: Execution, v: nat, o: Order)
      requires ex.Valid() && Valid(ex.maxThreads)
      modifies this, ex`threads, ex`sc
      ensures ex.Valid() && Valid(ex.maxThreads) && ex.Value() == SyncWrite(old(ex.Value()), ex.active, o)
      ensures writes == old(writes) + [NewWrite(old(ex.Value()), ex.active, old(writes), v, o, ex.maxThreads)]
      ensures Values(writes) == old(Values(writes)) + [v]
    {
      var hb := writes[|writes| - 1].hb;
      var seen := TouchSeen([], ex.active, ex.threads[ex.active]);
      hb := ex.SyncWrite(hb, o);
      writes := writes + [Write.Write(v, hb, seen, o == Order.SeqCst)];
    }

    method Store(ex: Execution, v: nat, o: Order)
      requires ex.Valid() && Valid(ex.maxThreads)
      modifies this, ex`threads, ex`sc
      ensures ex.Valid() && Valid(ex.maxThreads)
      ensures (ex.Value(), writes) == StoreOp(old(ex.Value()), ex.active, old(writes), v, o, ex.maxThreads)
      ensures Stored(old(ex.Value()), old(writes), ex.Value(), writes, ex.active, v, o, ex.maxThreads)
      ensures Values(writes) == old(Values(writes)) + [v]
    {
      ghost var x, ws := ex.Value(), writes;
      DoWrite(ex, v, o);
      ex.CausalityInc();
      StoreEffect(x, ex.active, ws, v, o, ex.maxThreads);
      StoreValues(x, ex.active, ws, v, o, ex.maxThreads);
    }

    method Rmw(ex: Execution, f: nat -> nat, o: Order) returns (v: nat, ghost c: Clock)
      requires ex.Valid() && Valid(ex.maxThreads)
      modifies this, ex`threads, ex`sc
      ensures ex.Valid() && Valid(ex.maxThreads) && v == old(writes)[|old(writes)| - 1].value
      ensures (ex.Value(), writes) == RmwOp(old(ex.Value()), ex.active, old(writes), f(v), o, ex.maxThreads)
      ensures Modified(old(ex.Value()), old(writes), c, ex.Value(), writes, ex.active, f(v), o, ex.maxThreads)
      ensures Values(writes) == old(Values(writes)) + [f(v)]
    {
      ghost var x, ws := ex.Value(), writes;
      var last := |writes| - 1;
      var seen := TouchSeen(writes[last].seen, ex.active, ex.threads[ex.active]);
      writes := writes[last := writes[last].(seen := seen)];
      ex.SyncRead(writes[last].hb, o);
      c := ex.threads[ex.active];
      v := writes[last].value;
      DoWrite(ex, f(v), o);
      ex.CausalityInc();
      RmwEffect(x, ex.active, ws, f(v), o, ex.maxThreads);
      RmwValues(x, ex.active, ws, f(v), o, ex.maxThreads);
    }

    /** `Some(v)` is the error case: the newest write holds `v`, not `current`. */
    method CompareExchange(ex: Execution, current: nat, v: nat, success: Order, failure: Order)
      returns (r: Option<nat>, ghost c: Clock)
      requires ex.Valid() && Valid(ex.maxThreads)
      modifies this, ex`threads, ex`sc
      ensures ex.Valid() && Valid(ex.maxThreads)
      ensures var last := old(writes)[|old(writes)| - 1].value;
              && r == (if last == current then None else Some(last))
              && (ex.Value(), writes) ==
                   if last == current
                   then RmwOp(old(ex.Value()), ex.active, old(writes), v, success, ex.maxThreads)
                   else LoadOp(old(ex.Value()), ex.active, old(writes), |old(writes)| - 1, failure, ex.maxThreads)
      ensures r == None ==>
                && Modified(old(ex.Value()), old(writes), c, ex.Value(), writes, ex.active, v, success, ex.maxThreads)
                && Values(writes) == old(Values(writes)) + [v]
      ensures r.Some? ==>
                && Loaded(old(ex.Value()), old(writes), ex.Value(), writes, ex.active, |old(writes)| - 1, failure,
                          ex.maxThreads)
                && Values(writes) == old(Values(writes))
    {
      hide Loaded, Modified, Values;
      ghost var x, ws := ex.Value(), writes;
      var last := |writes| - 1;
      var seen := TouchSeen(writes[last].seen, ex.active, ex.threads[ex.active]);
      writes := writes[last := writes[last].(seen := seen)];
      if writes[last].value != current {
        ex.SyncRead(writes[last].hb, failure);
        r, c := Some(writes[last].value), ex.threads[ex.active];
        LoadEffect(x, ex.active, ws, last, failure, ex.maxThreads);
        LoadValues(x, ex.active, ws, last, failure, ex.maxThreads);
      } else {
        ex.SyncRead(writes[last].hb, success);
        c := ex.threads[ex.active];
        DoWrite(ex, v, success);
        r := None;
        RmwEffect(x, ex.active, ws, v, success, ex.maxThreads);
        RmwValues(x, ex.active, ws, v, success, ex.maxThreads);
      }
      ex.CausalityInc();
    }
  }

  /** The version a causal cell keeps; the data it guards is not modelled. */
  class CausalCell {
    var version: Clock

    constructor (ex: Execution)
      requires ex.Valid()
      ensures |version| == ex.maxThreads && version == ex.threads[ex.active]
      ensures forall c :: Leq(ex.threads[ex.active], c) ==> Leq(version, c)
    {
      version := ex.threads[ex.active];
    }

    /** `false` is the failed assertion: the thread's clock neither covers the version nor has overtaken it. */
    method With(ex: Execution) returns (ok: bool)
      requires ex.Valid() && |version| == ex.maxThreads
      ensures ok <==> Leq(version, ex.threads[ex.active]) || Overtaken(version, ex.threads[ex.active])
    {
      LexBeyondLeq(version, ex.threads[ex.active]);
      if Leq(version, ex.threads[ex.active]) { LeqImpliesLex(version, ex.threads[ex.active]); }
      ok := LexLeq(version, ex.threads[ex.active]);
    }

    method WithMut(ex: Execution) returns (ok: bool)
      requires ex.Valid() && |version| == ex.maxThreads
      modifies this
      ensures ok <==> Leq(old(version), ex.threads[ex.active]) || Overtaken(old(version), ex.threads[ex.active])
      ensures !ok ==> version == old(version)
      ensures ok ==> version == Join(old(version), ex.threads[ex.active])
      ensures ok ==> Leq(old(version), version) && Leq(ex.threads[ex.active], version)
    {
      LexBeyondLeq(version, ex.threads[ex.active]);
      JoinIsLeast(version, ex.threads[ex.active]);
      if Leq(version, ex.threads[ex.active]) { LeqImpliesLex(version, ex.threads[ex.active]); }
      ok := LexLeq(version, ex.threads[ex.active]);
      if ok { version := Join(version, ex.threads[ex.active]); }
    }
  }
}
