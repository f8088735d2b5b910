/**
 * The accesses of an execution and the backtracks that follow from them, told without what objects
 * remember: a log of the steps says which thread made which access and what every thread is about
 * to do, and the scheduler asks for a backtrack exactly where a pending operation races.
 */
module ReductionHistory {
  import opened Wrappers
  import opened VersionVectors
  import opened Reduction
  import M = MutexMachine

  /** An access: the branch point where it was scheduled, what it was, whose, and the clock of its thread then. */
  datatype Event = Event(path: nat, obj: nat, action: Action, who: nat, clock: Clock)

  /** Which objects are atomics, the state of each thread, what it last called the scheduler with, and the accesses. */
  datatype Log = Log(atomic: seq<bool>, states: seq<M.RunState>, pending: seq<Option<Operation>>, events: seq<Event>)

  /** One more step, which leads from `s` to `s'`. */
  function Record(g: Log, s: State, a: Step, s': State): Log {
    match a
    case NewObject(atomic) => g.(atomic := g.atomic + [atomic])
    case Spawn => g.(states := g.states + [M.Runnable], pending := g.pending + [None])
    case SetState(t, st) => if t < |g.states| then g.(states := g.states[t := st]) else g
    case Schedule(op, st, next) =>
      if s'.panicked || s.active.None? || s.active.value >= |g.pending| || s.active.value >= |g.states| then g
      else
        var pending := g.pending[s.active.value := op];
        var g := g.(states := g.states[s.active.value := st]);
        if next.None? || next.value >= |pending| || next.value >= |s'.threads| || pending[next.value].None? then
          g.(pending := pending)
        else
          var o, t := pending[next.value].value, next.value;
          g.(pending := pending, events := g.events + [Event(|s.sizes|, o.obj, o.action, t, s'.threads[t].clock)])
    case _ => g
  }

  /** The log of a run, which starts with log `g`. */
  ghost function Logged(g: Log, s: State, steps: seq<Step>): Log
    decreases |steps|
  {
    if steps == [] then g
    else if Enabled(s, steps[0]) then
      Logged(Record(g, s, steps[0], Next(s, steps[0])), Next(s, steps[0]), steps[1..])
    else Logged(g, s, steps[1..])
  }

  /** The log when only the root thread is there. */
  const NOTHING := Log([], [M.Runnable], [None], [])

  // ----- races -----

  predicate Reads(a: Action) { a == Load || a == Rmw }

  predicate Writes(a: Action) { a == Store || a == Rmw }

  /** Event `k` is the last access of object `o`. */
  predicate LastAccess(h: seq<Event>, k: nat, o: nat) {
    k < |h| && h[k].obj == o && forall j :: k < j < |h| ==> h[j].obj != o
  }

  predicate LastRead(h: seq<Event>, k: nat, o: nat) {
    && k < |h| && h[k].obj == o && Reads(h[k].action)
    && forall j :: k < j < |h| ==> !(h[j].obj == o && Reads(h[j].action))
  }

  predicate LastWrite(h: seq<Event>, k: nat, o: nat) {
    && k < |h| && h[k].obj == o && Writes(h[k].action)
    && forall j :: k < j < |h| ==> !(h[j].obj == o && Writes(h[j].action))
  }

  /**
   * Operation `op` is dependent on event `k`: what writes an atomic on the last read of it, what
   * reads an atomic on the last write, and any operation on another object on the last one.
   */
  predicate DependsOnEvent(g: Log, op: Operation, k: nat) {
    && op.obj < |g.atomic|
    && if g.atomic[op.obj]
       then (Writes(op.action) && LastRead(g.events, k, op.obj)) || (Reads(op.action) && LastWrite(g.events, k, op.obj))
       else LastAccess(g.events, k, op.obj)
  }

  // ----- the log and the state agree -----

  function AccessOf(e: Event): Access { Access(e.path, e.clock, e.who) }

  /** What object `o` remembers is what the log says. */
  ghost predicate ObjectOk(h: seq<Event>, o: nat, x: Object) {
    match x
    case Atomic(load, store) =>
      && (forall k: nat :: LastRead(h, k, o) ==> load == Some(AccessOf(h[k])))
      && (load.Some? ==> exists k: nat :: LastRead(h, k, o))
      && (forall k: nat :: LastWrite(h, k, o) ==> store == Some(AccessOf(h[k])))
      && (store.Some? ==> exists k: nat :: LastWrite(h, k, o))
    case Plain(last) =>
      && (forall k: nat :: LastAccess(h, k, o) ==> last == Some(AccessOf(h[k])))
      && (last.Some? ==> exists k: nat :: LastAccess(h, k, o))
  }

  ghost predicate LogOk(g: Log, s: State) {
    && |g.atomic| == |s.objs| && |g.pending| == |g.states| == |s.threads|
    && (forall t :: 0 <= t < |s.threads| ==> s.threads[t].state == g.states[t])
    && (forall o :: 0 <= o < |s.objs| ==> s.objs[o].Atomic? == g.atomic[o])
    && (forall t :: 0 <= t < |s.threads| ==> s.threads[t].operation == g.pending[t])
    && (forall o: nat :: o < |s.objs| ==> ObjectOk(g.events, o, s.objs[o]))
    && (forall k :: 0 <= k < |g.events| ==> g.events[k].obj < |s.objs|)
    && (forall t :: 0 <= t < |g.pending| && g.pending[t].Some? ==> g.pending[t].value.obj < |s.objs|)
  }

  lemma OthersKept(h: seq<Event>, e: Event, o: nat, x: Object)
    requires ObjectOk(h, o, x) && e.obj != o
    ensures ObjectOk(h + [e], o, x)
  {
    var h' := h + [e];
    forall k: nat ensures LastRead(h', k, o) <==> LastRead(h, k, o) { KeptLast(h, e, o, k); }
    forall k: nat ensures LastWrite(h', k, o) <==> LastWrite(h, k, o) { KeptLast(h, e, o, k); }
    forall k: nat ensures LastAccess(h', k, o) <==> LastAccess(h, k, o) { KeptLast(h, e, o, k); }
    hide LastRead, LastWrite, LastAccess;
    assert forall k: nat :: k < |h| ==> h'[k] == h[k];
  }

  lemma KeptLast(h: seq<Event>, e: Event, o: nat, k: nat)
    ensures e.obj != o || !Reads(e.action) ==> (LastRead(h + [e], k, o) <==> LastRead(h, k, o))
    ensures e.obj != o || !Writes(e.action) ==> (LastWrite(h + [e], k, o) <==> LastWrite(h, k, o))
    ensures e.obj != o ==> (LastAccess(h + [e], k, o) <==> LastAccess(h, k, o))
    ensures e.obj == o && Reads(e.action) ==> (LastRead(h + [e], k, o) <==> k == |h|)
    ensures e.obj == o && Writes(e.action) ==> (LastWrite(h + [e], k, o) <==> k == |h|)
    ensures e.obj == o ==> (LastAccess(h + [e], k, o) <==> k == |h|)
    ensures LastRead(h, k, o) || LastWrite(h, k, o) || LastAccess(h, k, o) ==> k < |h| && (h + [e])[k] == h[k]
  {
    var h' := h + [e];
    assert forall j :: 0 <= j < |h| ==> h'[j] == h[j];
    assert h'[|h|] == e;
  }

  lemma ReadKept(h: seq<Event>, e: Event, o: nat, load: Option<Access>)
    requires forall k: nat :: LastRead(h, k, o) ==> load == Some(AccessOf(h[k]))
    requires load.Some? ==> exists k: nat :: LastRead(h, k, o)
    requires e.obj == o
    ensures var load', h' := if Reads(e.action) then Some(AccessOf(e)) else load, h + [e];
            && (forall k: nat :: LastRead(h', k, o) ==> load' == Some(AccessOf(h'[k])))
            && (load'.Some? ==> exists k: nat :: LastRead(h', k, o))
  {
    forall k: nat
      ensures LastRead(h + [e], k, o) <==> if Reads(e.action) then k == |h| else LastRead(h, k, o)
      ensures LastRead(h, k, o) ==> k < |h| && (h + [e])[k] == h[k]
    {
      KeptLast(h, e, o, k);
    }
    if Reads(e.action) {
      assert LastRead(h + [e], |h|, o);
    } else if load.Some? {
      var k: nat :| LastRead(h, k, o);
      assert LastRead(h + [e], k, o);
    }
  }

  lemma WriteKept(h: seq<Event>, e: Event, o: nat, store: Option<Access>)
    requires forall k: nat :: LastWrite(h, k, o) ==> store == Some(AccessOf(h[k]))
    requires store.Some? ==> exists k: nat :: LastWrite(h, k, o)
    requires e.obj == o
    ensures var store', h' := if Writes(e.action) then Some(AccessOf(e)) else store, h + [e];
            && (forall k: nat :: LastWrite(h', k, o) ==> store' == Some(AccessOf(h'[k])))
            && (store'.Some? ==> exists k: nat :: LastWrite(h', k, o))
  {
    forall k: nat
      ensures LastWrite(h + [e], k, o) <==> if Writes(e.action) then k == |h| else LastWrite(h, k, o)
      ensures LastWrite(h, k, o) ==> k < |h| && (h + [e])[k] == h[k]
    {
      KeptLast(h, e, o, k);
    }
    if Writes(e.action) {
      assert LastWrite(h + [e], |h|, o);
    } else if store.Some? {
      var k: nat :| LastWrite(h, k, o);
      assert LastWrite(h + [e], k, o);
    }
  }

  lemma AccessKept(h: seq<Event>, e: Event, o: nat)
    requires e.obj == o
    ensures var h' := h + [e];
            && (forall k: nat :: LastAccess(h', k, o) ==> Some(AccessOf(e)) == Some(AccessOf(h'[k])))
            && (exists k: nat :: LastAccess(h', k, o))
  {
    forall k: nat ensures LastAccess(h + [e], k, o) <==> k == |h| { KeptLast(h, e, o, k); }
    assert LastAccess(h + [e], |h|, o);
  }

  /** The access made is what its object remembers from now on. */
  lemma AccessedObject(h: seq<Event>, e: Event, o: nat, x: Object)
    requires ObjectOk(h, o, x) && e.obj == o
    ensures ObjectOk(h + [e], o, SetLast(x, e.action, AccessOf(e)))
  {
    match x
    case Atomic(load, store) =>
      ReadKept(h, e, o, load);
      WriteKept(h, e, o, store);
      hide LastRead, LastWrite, AccessOf;
    case Plain(_) =>
      AccessKept(h, e, o);
      hide LastAccess, AccessOf;
  }

  lemma NothingLogged(n: nat)
    ensures LogOk(NOTHING, Init(n))
  {
  }

  /** The picked thread, with a pending operation, makes its access. */
  lemma EventLogged(g: Log, s: State, ths: seq<Thread>, t: nat, path: nat)
    requires LogOk(g, s.(threads := ths)) && t < |ths| && t < |ths[t].clock|
    requires forall x :: x in DependsOn(s.objs, ths[t]) ==> |x.clock| == |ths[t].clock|
    requires ths[t].operation.Some? && ths[t].operation.value.obj < |s.objs|
    ensures var s', o := MakeAccess(s, ths, t, path), ths[t].operation.value;
            && |s'.threads| == |ths|
            && LogOk(g.(events := g.events + [Event(path, o.obj, o.action, t, s'.threads[t].clock)]), s')
  {
    var s', op := MakeAccess(s, ths, t, path), ths[t].operation.value;
    var e := Event(path, op.obj, op.action, t, s'.threads[t].clock);
    hide JoinAll, DependsOn, ObjectOk;
    forall o: nat | o < |s'.objs| ensures ObjectOk(g.events + [e], o, s'.objs[o]) {
      assert ObjectOk(g.events, o, s.objs[o]);
      if o == op.obj {
        AccessedObject(g.events, e, o, s.objs[o]);
      } else {
        OthersKept(g.events, e, o, s.objs[o]);
      }
    }
  }

  /** Between branch points and at those of loads nothing is accessed. */
  lemma QuietLogged(g: Log, s: State, a: Step)
    requires Enabled(s, a) && LogOk(g, s) && !a.Schedule?
    ensures LogOk(Record(g, s, a, Next(s, a)), Next(s, a))
  {
    var s' := Next(s, a);
    match a
    case NewObject(atomic) =>
      var g' := Record(g, s, a, s');
      forall o: nat | o < |s'.objs| ensures ObjectOk(g'.events, o, s'.objs[o]) {
        if o < |s.objs| { assert ObjectOk(g.events, o, s.objs[o]); }
      }
    case _ =>
  }

  lemma ScheduleLogged(g: Log, s: State, a: Step)
    requires Enabled(s, a) && LogOk(g, s) && a.Schedule?
    ensures LogOk(Record(g, s, a, Next(s, a)), Next(s, a))
  {
    hide Marks, Fits, DependsOn, ObjectOk;
    var s', ths := Next(s, a), Called(s, a.operation, a.state);
    if !s'.panicked {
      var s1 := s.(sizes := s.sizes + [Some(|ths|)], active := a.next);
      var g1 := g.(states := g.states[s.active.value := a.state], pending := g.pending[s.active.value := a.operation]);
      assert LogOk(g1, s1.(threads := ths));
      if a.next.Some? {
        DependsShaped(s, ths[a.next.value]);
        assert s' == MakeAccess(s1, ths, a.next.value, |s.sizes|);
        if ths[a.next.value].operation.Some? { EventLogged(g1, s1, ths, a.next.value, |s.sizes|); }
      }
    }
  }

  lemma {:induction false} RunLogged(g: Log, s: State, steps: seq<Step>)
    requires LogOk(g, s)
    ensures LogOk(Logged(g, s, steps), Exec(s, steps))
    decreases |steps|
  {
    hide LogOk, Enabled, Next, Record;
    if steps != [] {
      var a := steps[0];
      if Enabled(s, a) {
        if a.Schedule? { ScheduleLogged(g, s, a); } else { QuietLogged(g, s, a); }
        RunLogged(Record(g, s, a, Next(s, a)), Next(s, a), steps[1..]);
      } else {
        RunLogged(g, s, steps[1..]);
      }
    }
  }

  // ----- what is asked for -----

  /** What thread `t` is about to do when the active one calls the scheduler with `op`. */
  function Pending(g: Log, s: State, op: Option<Operation>, t: nat): Option<Operation>
    requires t < |g.pending|
  {
    if s.active == Some(t) then op else g.pending[t]
  }

  /** Thread `t` is about to make an operation that depends on event `k`, of which it does not know. */
  predicate Racing(g: Log, s: State, op: Option<Operation>, t: nat, k: nat) {
    && t < |s.threads| && t < |g.pending| && k < |g.events|
    && Pending(g, s, op, t).Some? && DependsOnEvent(g, Pending(g, s, op, t).value, k)
    && !LexLeq(g.events[k].clock, s.threads[t].clock)
  }

  /**
   * In every execution, a thread that is picked is one that last called the scheduler able to run,
   * or was made so since by another; if nobody is, no thread is.
   */
  lemma PickedCanRun(n: nat, steps: seq<Step>, op: Option<Operation>, st: M.RunState, next: Option<nat>, t: nat)
    requires Enabled(Exec(Init(n), steps), Schedule(op, st, next)) && t < |Exec(Init(n), steps).threads|
    ensures var s, g := Exec(Init(n), steps), Logged(NOTHING, Init(n), steps);
            && |g.states| == |s.threads|
            && Called(s, op, st)[t].state == (if s.active == Some(t) then st else g.states[t])
            && (next == Some(t) ==> (if s.active == Some(t) then st else g.states[t]) == M.Runnable)
  {
    NothingLogged(n);
    RunLogged(NOTHING, Init(n), steps);
    hide Exec, Logged, Marks;
  }

  /** The accesses that a pending operation depends on are those of the events. */
  lemma DependsExact(g: Log, s: State, op: Option<Operation>, st: M.RunState, t: nat, x: Access)
    requires LogOk(g, s) && s.active.Some? && s.active.value < |s.threads| && t < |s.threads|
    requires op.Some? ==> op.value.obj < |s.objs|
    ensures x in DependsOn(s.objs, Called(s, op, st)[t]) <==>
              exists k: nat :: k < |g.events| && x == AccessOf(g.events[k])
                               && Pending(g, s, op, t).Some? && DependsOnEvent(g, Pending(g, s, op, t).value, k)
  {
    var th := Called(s, op, st)[t];
    assert th.operation == Pending(g, s, op, t);
    if th.operation.Some? {
      var o := th.operation.value.obj;
      assert ObjectOk(g.events, o, s.objs[o]);
      RememberedExact(g, th.operation.value, s.objs[o], x);
      hide ObjectOk, DependsOnEvent, Dependent, AccessOf;
    }
  }

  lemma RememberedExact(g: Log, op: Operation, o: Object, x: Access)
    requires ObjectOk(g.events, op.obj, o) && op.obj < |g.atomic| && g.atomic[op.obj] == o.Atomic?
    ensures (Dependent(o, op.action).Some? && x in Dependent(o, op.action).value) <==>
              exists k: nat :: k < |g.events| && x == AccessOf(g.events[k]) && DependsOnEvent(g, op, k)
  {
  }

  /** A mark is a pending operation's access that its thread does not know of. */
  lemma {:induction false} UnknownMarked(xs: seq<Access>, clock: Clock, t: nat, a: Access)
    requires a in xs && !LexLeq(a.clock, clock)
    ensures (a.path, t) in MarksOf(xs, clock, t)
  {
    if xs[0] != a { UnknownMarked(xs[1..], clock, t, a); }
  }

  lemma {:induction false} ThreadMarked(objs: seq<Object>, ths: seq<Thread>, k: nat, t: nat, a: Access)
    requires t < k <= |ths| && a in DependsOn(objs, ths[t]) && !LexLeq(a.clock, ths[t].clock)
    ensures (a.path, t) in Marks(objs, ths, k)
  {
    if t == k - 1 {
      UnknownMarked(DependsOn(objs, ths[t]), ths[t].clock, t, a);
    } else {
      ThreadMarked(objs, ths, k - 1, t, a);
    }
  }

  /** A backtrack is asked for exactly where a pending operation races with an event. */
  lemma MarksRace(g: Log, s: State, op: Option<Operation>, st: M.RunState, m: (nat, nat))
    requires LogOk(g, s) && s.active.Some? && s.active.value < |s.threads| && (op.Some? ==> op.value.obj < |s.objs|)
    ensures m in Marks(s.objs, Called(s, op, st), |s.threads|) <==>
              exists k: nat :: Racing(g, s, op, m.1, k) && g.events[k].path == m.0
  {
    assert |g.pending| == |s.threads|;
    hide Marks, DependsOn, LexLeq, DependsOnEvent, LogOk;
    var ths := Called(s, op, st);
    if m in Marks(s.objs, ths, |ths|) {
      var x := MarkThread(s.objs, ths, |ths|, m);
      DependsExact(g, s, op, st, m.1, x);
      var k: nat :| k < |g.events| && x == AccessOf(g.events[k])
                    && Pending(g, s, op, m.1).Some? && DependsOnEvent(g, Pending(g, s, op, m.1).value, k);
      assert Racing(g, s, op, m.1, k);
    }
    if k: nat :| Racing(g, s, op, m.1, k) && g.events[k].path == m.0 {
      var x := AccessOf(g.events[k]);
      DependsExact(g, s, op, st, m.1, x);
      ThreadMarked(s.objs, ths, |ths|, m.1, x);
    }
  }

  /**
   * In every execution, the scheduler asks for thread `t` at branch point `i` exactly if `t` is
   * about to make an operation dependent on an access that was scheduled at `i`, and does not know
   * of that access.
   */
  lemma MarksExact(n: nat, steps: seq<Step>, op: Option<Operation>, st: M.RunState, next: Option<nat>, i: nat, t: nat)
    requires Enabled(Exec(Init(n), steps), Schedule(op, st, next))
    ensures var s, g := Exec(Init(n), steps), Logged(NOTHING, Init(n), steps);
            (i, t) in Marks(s.objs, Called(s, op, st), |s.threads|) <==>
              exists k: nat :: Racing(g, s, op, t, k) && g.events[k].path == i
  {
    NothingLogged(n);
    RunLogged(NOTHING, Init(n), steps);
    var s, g := Exec(Init(n), steps), Logged(NOTHING, Init(n), steps);
    hide Exec, Logged, Marks, Racing, LogOk;
    MarksRace(g, s, op, st, (i, t));
  }

  // ----- what a thread comes to know -----

  lemma {:induction false} JoinAllLeast(c: Clock, xs: seq<Access>, e: Clock)
    requires forall x :: x in xs ==> |x.clock| == |c|
    requires Leq(c, e) && forall x :: x in xs ==> Leq(x.clock, e)
    ensures Leq(JoinAll(c, xs), e)
    decreases |xs|
  {
    if xs != [] {
      JoinIsLeast(c, xs[0].clock);
      JoinAllLeast(Join(c, xs[0].clock), xs[1..], e);
    }
  }

  /** Clock `d` is the least that covers `c` and every event that `op` depends on. */
  ghost predicate LeastCovering(g: Log, op: Operation, c: Clock, d: Clock) {
    && Leq(c, d) && (forall k: nat :: k < |g.events| && DependsOnEvent(g, op, k) ==> Leq(g.events[k].clock, d))
    && forall e: Clock ::
         Leq(c, e) && (forall k: nat :: k < |g.events| && DependsOnEvent(g, op, k) ==> Leq(g.events[k].clock, e)) ==>
           Leq(d, e)
  }

  lemma JoinCovers(g: Log, s: State, op: Option<Operation>, st: M.RunState, t: nat)
    requires LogOk(g, s) && Shaped(s) && s.active.Some? && t < |s.threads| && Pending(g, s, op, t).Some?
    requires op.Some? ==> op.value.obj < |s.objs|
    ensures var th := Called(s, op, st)[t];
            && (forall x :: x in DependsOn(s.objs, th) ==> |x.clock| == |th.clock|)
            && LeastCovering(g, Pending(g, s, op, t).value, th.clock, JoinAll(th.clock, DependsOn(s.objs, th)))
  {
    var th, o := Called(s, op, st)[t], Pending(g, s, op, t).value;
    var xs := DependsOn(s.objs, th);
    DependsShaped(s, th);
    forall x: Access
      ensures x in xs <==>
                exists k: nat :: k < |g.events| && x == AccessOf(g.events[k]) && DependsOnEvent(g, o, k)
    {
      DependsExact(g, s, op, st, t, x);
    }
    hide DependsOn, DependsOnEvent, LogOk, JoinAll, Leq;
    JoinAllGrows(th.clock, xs);
    forall k: nat | k < |g.events| && DependsOnEvent(g, o, k) ensures AccessOf(g.events[k]) in xs {}
    forall e: Clock
      | Leq(th.clock, e) && (forall k: nat :: k < |g.events| && DependsOnEvent(g, o, k) ==> Leq(g.events[k].clock, e))
      ensures Leq(JoinAll(th.clock, xs), e)
    {
      JoinAllLeast(th.clock, xs, e);
    }
  }

  /**
   * In every execution, a thread that is picked comes to know exactly what the accesses that its
   * own depends on knew, and its own entry is one larger; nobody else learns anything.
   */
  lemma PickedLearns(n: nat, steps: seq<Step>, op: Option<Operation>, st: M.RunState, t: nat) returns (d: Clock)
    requires Enabled(Exec(Init(n), steps), Schedule(op, st, Some(t)))
    requires !Next(Exec(Init(n), steps), Schedule(op, st, Some(t))).panicked
    ensures var s, g := Exec(Init(n), steps), Logged(NOTHING, Init(n), steps);
            var s' := Next(s, Schedule(op, st, Some(t)));
            && t < |s.threads| == |s'.threads| == |g.pending|
            && (forall u :: 0 <= u < |s.threads| && u != t ==> s'.threads[u].clock == s.threads[u].clock)
            && (Pending(g, s, op, t).None? ==> s'.threads[t].clock == s.threads[t].clock)
            && (Pending(g, s, op, t).Some? ==>
                  && t < |d| && s'.threads[t].clock == d[t := d[t] + 1]
                  && LeastCovering(g, Pending(g, s, op, t).value, s.threads[t].clock, d))
  {
    NothingLogged(n);
    RunLogged(NOTHING, Init(n), steps);
    d := PickLearns(Logged(NOTHING, Init(n), steps), Exec(Init(n), steps), op, st, t);
  }

  lemma PickLearns(g: Log, s: State, op: Option<Operation>, st: M.RunState, t: nat) returns (d: Clock)
    requires LogOk(g, s) && Enabled(s, Schedule(op, st, Some(t))) && !Next(s, Schedule(op, st, Some(t))).panicked
    ensures var s' := Next(s, Schedule(op, st, Some(t)));
            && t < |s.threads| == |s'.threads| == |g.pending|
            && (forall u :: 0 <= u < |s.threads| && u != t ==> s'.threads[u].clock == s.threads[u].clock)
            && (Pending(g, s, op, t).None? ==> s'.threads[t].clock == s.threads[t].clock)
            && (Pending(g, s, op, t).Some? ==>
                  && t < |d| && s'.threads[t].clock == d[t := d[t] + 1]
                  && LeastCovering(g, Pending(g, s, op, t).value, s.threads[t].clock, d))
  {
    hide Marks, Fits, LeastCovering, ObjectOk;
    assert |g.pending| == |s.threads| && t < |s.threads|;
    var th := Called(s, op, st)[t];
    assert th.operation == Pending(g, s, op, t) && th.clock == s.threads[t].clock;
    DependsShaped(s, th);
    d := JoinAll(th.clock, DependsOn(s.objs, th));
    if Pending(g, s, op, t).Some? { JoinCovers(g, s, op, st, t); }
    hide DependsOn, JoinAll, LogOk;
  }

  /** A new thread knows what its creator knows; no other step but a pick changes what threads know. */
  lemma QuietLearnsNothing(s: State, a: Step)
    requires Enabled(s, a) && !a.Schedule?
    ensures var s' := Next(s, a);
            && |s'.threads| == |s.threads| + (if a.Spawn? then 1 else 0)
            && (forall u :: 0 <= u < |s.threads| ==> s'.threads[u].clock == s.threads[u].clock)
            && (a.Spawn? ==> s'.threads[|s.threads|].clock == s.threads[s.active.value].clock)
  {
    if a.Spawn? {
      var c := s.threads[s.active.value].clock;
      assert Join(Zero(s.n), c) == c;
    }
  }
}
