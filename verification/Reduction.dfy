/**
 * The half of `Execution::schedule` that decides on backtracks: each object remembers its last
 * accesses, each thread carries a clock of the accesses it depends on, and an access that a
 * pending operation depends on, and does not know of, marks the branch point of that access.
 */
module Reduction {
  import opened Wrappers
  import opened VersionVectors
  import M = MutexMachine

  datatype Action = Load | Store | Rmw | Opaque

  datatype Operation = Operation(obj: nat, action: Action)

  /** `path` is the branch point where the access was scheduled; `who` made it, which is history. */
  datatype Access = Access(path: nat, clock: Clock, who: nat)

  /** An atomic remembers its last load and store; mutexes, condition variables and threads one access. */
  datatype Object = Atomic(load: Option<Access>, store: Option<Access>) | Plain(last: Option<Access>)

  datatype Thread = Thread(state: M.RunState, operation: Option<Operation>, clock: Clock)

  function ToSeq(a: Option<Access>): seq<Access> { if a.Some? then [a.value] else [] }

  /** `last_dependent_accesses`; `None` is a panic: an opaque operation on an atomic. */
  function Dependent(o: Object, a: Action): Option<seq<Access>> {
    match (o, a)
    case (Atomic(_, store), Load) => Some(ToSeq(store))
    case (Atomic(load, _), Store) => Some(ToSeq(load))
    case (Atomic(load, store), Rmw) => Some(ToSeq(load) + ToSeq(store))
    case (Atomic(_, _), Opaque) => None
    case (Plain(last), _) => Some(ToSeq(last))
  }

  /** `set_last_access`. */
  function SetLast(o: Object, a: Action, x: Access): Object {
    match (o, a)
    case (Atomic(_, store), Load) => Atomic(Some(x), store)
    case (Atomic(load, _), Store) => Atomic(load, Some(x))
    case (Atomic(_, _), Rmw) => Atomic(Some(x), Some(x))
    case (Atomic(_, _), Opaque) => o
    case (Plain(_), _) => Plain(Some(x))
  }

  /** The accesses that a thread's pending operation depends on. */
  function DependsOn(objs: seq<Object>, th: Thread): seq<Access> {
    if th.operation.None? || th.operation.value.obj >= |objs| then []
    else
      match Dependent(objs[th.operation.value.obj], th.operation.value.action)
      case Some(xs) => xs
      case None => []
  }

  /** The accesses an object remembers. */
  predicate Remembers(o: Object, x: Access) {
    match o
    case Atomic(load, store) => load == Some(x) || store == Some(x)
    case Plain(last) => last == Some(x)
  }

  lemma DependentRemembered(o: Object, a: Action, x: Access)
    requires Dependent(o, a).Some? && x in Dependent(o, a).value
    ensures Remembers(o, x)
  {
  }

  lemma DependsRemembered(objs: seq<Object>, th: Thread, x: Access)
    requires x in DependsOn(objs, th)
    ensures exists o :: 0 <= o < |objs| && Remembers(objs[o], x)
  {
    DependentRemembered(objs[th.operation.value.obj], th.operation.value.action, x);
  }

  /** Of these accesses, those that the thread does not know of, as marks of thread `t`. */
  function MarksOf(xs: seq<Access>, c: Clock, t: nat): seq<(nat, nat)> {
    if xs == [] then []
    else (if LexLeq(xs[0].clock, c) then [] else [(xs[0].path, t)]) + MarksOf(xs[1..], c, t)
  }

  /** The backtracks of the first `k` threads, in the order in which `schedule` asks for them. */
  function Marks(objs: seq<Object>, ths: seq<Thread>, k: nat): seq<(nat, nat)>
    requires k <= |ths|
  {
    if k == 0 then [] else Marks(objs, ths, k - 1) + MarksOf(DependsOn(objs, ths[k - 1]), ths[k - 1].clock, k - 1)
  }

  function JoinAll(c: Clock, xs: seq<Access>): (d: Clock)
    requires forall x :: x in xs ==> |x.clock| == |c|
    ensures |d| == |c|
    decreases |xs|
  {
    if xs == [] then c else JoinAll(Join(c, xs[0].clock), xs[1..])
  }

  // ----- one execution -----

  /** `sizes` has, for each branch point so far, how many threads were scheduled there, or nothing for a load's. */
  datatype State = State(n: nat, threads: seq<Thread>, active: Option<nat>, objs: seq<Object>, sizes: seq<Option<nat>>,
                         panicked: bool)

  /** What happens between two branch points, and the branch points. */
  datatype Step =
    | NewObject(atomic: bool)
    | Spawn
    | SetState(t: nat, state: M.RunState)
    | ReadBranch
    | Schedule(operation: Option<Operation>, state: M.RunState, next: Option<nat>)

  /** The threads when the active one calls the scheduler. */
  function Called(s: State, op: Option<Operation>, st: M.RunState): seq<Thread>
    requires s.active.Some? && s.active.value < |s.threads|
  {
    s.threads[s.active.value := Thread(st, op, s.threads[s.active.value].clock)]
  }

  /** Every clock has one entry per possible thread. */
  ghost predicate Shaped(s: State) {
    && |s.threads| <= s.n && (s.active.Some? ==> s.active.value < |s.threads|)
    && (forall t :: 0 <= t < |s.threads| ==> |s.threads[t].clock| == s.n)
    && (forall o, x: Access :: 0 <= o < |s.objs| && Remembers(s.objs[o], x) ==> |x.clock| == s.n)
  }

  /**
   * A new object is of its kind; operations are on objects that exist, opaque ones not on atomics;
   * only runnable threads are picked.
   */
  ghost predicate Enabled(s: State, a: Step) {
    && Shaped(s) && !s.panicked && s.active.Some? && s.active.value < |s.threads|
    && match a
       case Spawn => |s.threads| < s.n
       case SetState(t, _) => t < |s.threads| && t != s.active.value
       case Schedule(op, st, next) =>
         && (op.Some? ==> op.value.obj < |s.objs| && Dependent(s.objs[op.value.obj], op.value.action).Some?)
         && (next.Some? ==> next.value < |s.threads| && Called(s, op, st)[next.value].state == M.Runnable)
       case _ => true
  }

  lemma DependsShaped(s: State, th: Thread)
    requires Shaped(s)
    ensures forall x :: x in DependsOn(s.objs, th) ==> |x.clock| == s.n
  {
    forall x | x in DependsOn(s.objs, th) ensures |x.clock| == s.n { DependsRemembered(s.objs, th, x); }
  }

  /** Does the branch point exist, and did the thread exist there? */
  predicate Fits(sizes: seq<Option<nat>>, m: (nat, nat)) {
    m.0 < |sizes| && sizes[m.0].Some? && m.1 < sizes[m.0].value
  }

  /** The picked thread makes its access: it comes to know what it depends on, and is remembered. */
  function MakeAccess(s: State, ths: seq<Thread>, t: nat, path: nat): State
    requires t < |ths| && t < |ths[t].clock|
    requires forall x :: x in DependsOn(s.objs, ths[t]) ==> |x.clock| == |ths[t].clock|
  {
    if ths[t].operation.None? || ths[t].operation.value.obj >= |s.objs| then s.(threads := ths)
    else
      var o := ths[t].operation.value;
      var c := Inc(JoinAll(ths[t].clock, DependsOn(s.objs, ths[t])), t);
      s.(threads := ths[t := ths[t].(clock := c)],
         objs := s.objs[o.obj := SetLast(s.objs[o.obj], o.action, Access(path, c, t))])
  }

  /** The access of thread `t`, scheduled at branch point `path`, leads from `s` to `s'`. */
  ghost predicate Accessed(s: State, s': State, t: nat, path: nat)
    requires Shaped(s) && t < |s.threads|
  {
    DependsShaped(s, s.threads[t]);
    s'.threads == MakeAccess(s, s.threads, t, path).threads && s'.objs == MakeAccess(s, s.threads, t, path).objs
  }

  lemma ShapedActive(s: State, a: nat)
    requires Shaped(s) && a < |s.threads|
    ensures Shaped(s.(active := Some(a)))
  {
  }

  lemma AccessedActive(s: State, s': State, a: nat, t: nat, path: nat)
    requires Shaped(s) && Shaped(s.(active := Some(a))) && t < |s.threads|
    requires Accessed(s.(active := Some(a)), s', t, path)
    ensures Accessed(s, s', t, path)
  {
    DependsShaped(s, s.threads[t]);
  }

  ghost function Next(s: State, a: Step): State
    requires Enabled(s, a)
  {
    match a
    case NewObject(atomic) => s.(objs := s.objs + [if atomic then Atomic(None, None) else Plain(None)])
    case Spawn =>
      s.(threads := s.threads + [Thread(M.Runnable, None, Join(Zero(s.n), s.threads[s.active.value].clock))])
    case SetState(t, st) => s.(threads := s.threads[t := s.threads[t].(state := st)])
    case ReadBranch => s.(sizes := s.sizes + [None])
    case Schedule(op, st, next) =>
      var ths := Called(s, op, st);
      var marks := Marks(s.objs, ths, |ths|);
      if exists m :: m in marks && !Fits(s.sizes, m) then s.(panicked := true)
      else
        var s1 := s.(sizes := s.sizes + [Some(|ths|)], active := next);
        if next.None? then s1.(threads := ths) else
          DependsShaped(s, ths[next.value]);
          MakeAccess(s1, ths, next.value, |s.sizes|)
  }

  /** The root thread alone. */
  function Init(n: nat): State { State(n, [Thread(M.Runnable, None, Zero(n))], Some(0), [], [], false) }

  /** The run of a list of steps; those not enabled when their turn comes do nothing. */
  ghost function Exec(s: State, steps: seq<Step>): State
    decreases |steps|
  {
    if steps == [] then s
    else Exec(if Enabled(s, steps[0]) then Next(s, steps[0]) else s, steps[1..])
  }

  // ----- what every execution keeps -----

  /** A remembered access was scheduled at a thread branch point of the past, and its thread knows of it. */
  predicate AccessOk(s: State, x: Access) {
    && x.path < |s.sizes| && s.sizes[x.path].Some? && |x.clock| == s.n
    && x.who < |s.threads| && Leq(x.clock, s.threads[x.who].clock)
  }

  ghost predicate Inv(s: State) {
    && Shaped(s)
    && (forall o, x: Access :: 0 <= o < |s.objs| && Remembers(s.objs[o], x) ==> AccessOk(s, x))
    && (forall k :: 0 <= k < |s.sizes| && s.sizes[k].Some? ==> s.sizes[k].value <= |s.threads|)
  }

  lemma {:induction false} JoinAllGrows(c: Clock, xs: seq<Access>)
    requires forall x :: x in xs ==> |x.clock| == |c|
    ensures Leq(c, JoinAll(c, xs)) && forall x :: x in xs ==> Leq(x.clock, JoinAll(c, xs))
    decreases |xs|
  {
    if xs != [] {
      var d := Join(c, xs[0].clock);
      JoinIsLeast(c, xs[0].clock);
      JoinAllGrows(d, xs[1..]);
      var e := JoinAll(c, xs);
      LeqTransitive(c, d, e);
      LeqTransitive(xs[0].clock, d, e);
      forall x | x in xs ensures Leq(x.clock, e) { if x != xs[0] { assert x in xs[1..]; } }
    }
  }

  lemma {:induction false} MarkComesFrom(xs: seq<Access>, c: Clock, t: nat, m: (nat, nat)) returns (x: Access)
    requires m in MarksOf(xs, c, t)
    ensures x in xs && m == (x.path, t) && !LexLeq(x.clock, c)
  {
    if !LexLeq(xs[0].clock, c) && m == (xs[0].path, t) {
      x := xs[0];
    } else {
      x := MarkComesFrom(xs[1..], c, t, m);
    }
  }

  lemma {:induction false} MarkThread(objs: seq<Object>, ths: seq<Thread>, k: nat, m: (nat, nat)) returns (x: Access)
    requires k <= |ths| && m in Marks(objs, ths, k)
    ensures m.1 < k && x in DependsOn(objs, ths[m.1]) && m.0 == x.path && !LexLeq(x.clock, ths[m.1].clock)
  {
    if m in Marks(objs, ths, k - 1) {
      x := MarkThread(objs, ths, k - 1, m);
    } else {
      x := MarkComesFrom(DependsOn(objs, ths[k - 1]), ths[k - 1].clock, k - 1, m);
    }
  }

  lemma InitInv(n: nat)
    requires n > 0
    ensures Inv(Init(n))
  {
  }

  /** Threads only come, clocks and branch points only grow. */
  ghost predicate Grown(s: State, s': State) {
    && s'.n == s.n && |s.threads| <= |s'.threads| && s.sizes <= s'.sizes
    && forall t :: 0 <= t < |s.threads| ==> Leq(s.threads[t].clock, s'.threads[t].clock)
  }

  lemma AccessStays(s: State, s': State, x: Access)
    requires AccessOk(s, x) && Grown(s, s')
    ensures AccessOk(s', x)
  {
    LeqTransitive(x.clock, s.threads[x.who].clock, s'.threads[x.who].clock);
  }

  /** Nothing but the picked thread's access changes what objects remember. */
  lemma StaysInv(s: State, s': State)
    requires Inv(s) && Shaped(s') && Grown(s, s') && |s.objs| <= |s'.objs|
    requires forall k :: |s.sizes| <= k < |s'.sizes| && s'.sizes[k].Some? ==> s'.sizes[k].value <= |s'.threads|
    requires forall o :: 0 <= o < |s.objs| ==> s'.objs[o] == s.objs[o]
    requires forall o :: |s.objs| <= o < |s'.objs| ==> forall x: Access :: !Remembers(s'.objs[o], x)
    ensures Inv(s')
  {
    forall o, x: Access | 0 <= o < |s'.objs| && Remembers(s'.objs[o], x) ensures AccessOk(s', x) {
      AccessStays(s, s', x);
    }
    forall k | 0 <= k < |s'.sizes| && s'.sizes[k].Some? ensures s'.sizes[k].value <= |s'.threads| {
      if k < |s.sizes| { assert s'.sizes[k] == s.sizes[k]; }
    }
  }

  lemma AccessInv(s: State, ths: seq<Thread>, t: nat, path: nat)
    requires Inv(s.(threads := ths)) && t < |ths| && path < |s.sizes| && s.sizes[path].Some?
    requires forall x :: x in DependsOn(s.objs, ths[t]) ==> |x.clock| == |ths[t].clock|
    ensures Inv(MakeAccess(s, ths, t, path))
  {
    var s1 := s.(threads := ths);
    var s' := MakeAccess(s, ths, t, path);
    if ths[t].operation.Some? && ths[t].operation.value.obj < |s.objs| {
      var d := JoinAll(ths[t].clock, DependsOn(s.objs, ths[t]));
      JoinAllGrows(ths[t].clock, DependsOn(s.objs, ths[t]));
      LeqTransitive(ths[t].clock, d, Inc(d, t));
      var op := ths[t].operation.value;
      var mine := Access(path, Inc(d, t), t);
      assert Grown(s1, s');
      assert AccessOk(s', mine);
      forall o, x: Access | 0 <= o < |s'.objs| && Remembers(s'.objs[o], x) ensures AccessOk(s', x) {
        if x != mine {
          assert Remembers(s.objs[o], x);
          AccessStays(s1, s', x);
        }
      }
    }
  }

  lemma ScheduleInv(s: State, op: Option<Operation>, st: M.RunState, next: Option<nat>)
    requires Inv(s) && Enabled(s, Schedule(op, st, next))
    ensures Inv(Next(s, Schedule(op, st, next)))
  {
    hide Marks, Fits;
    var s' := Next(s, Schedule(op, st, next));
    var ths := Called(s, op, st);
    if s'.panicked {
      assert s' == s.(panicked := true);
      StaysInv(s, s');
    } else {
      var s1 := s.(sizes := s.sizes + [Some(|ths|)], active := next);
      StaysInv(s, s1.(threads := ths));
      if next.Some? {
        DependsShaped(s, ths[next.value]);
        AccessInv(s1, ths, next.value, |s.sizes|);
        assert s' == MakeAccess(s1, ths, next.value, |s.sizes|);
      }
    }
  }

  lemma StepInv(s: State, a: Step)
    requires Inv(s) && Enabled(s, a)
    ensures Inv(Next(s, a))
  {
    match a
    case Schedule(op, st, next) => ScheduleInv(s, op, st, next);
    case Spawn =>
      var s' := Next(s, a);
      assert |Join(Zero(s.n), s.threads[s.active.value].clock)| == s.n;
      StaysInv(s, s');
    case NewObject(_) => StaysInv(s, Next(s, a));
    case SetState(t, _) => StaysInv(s, Next(s, a));
    case ReadBranch => StaysInv(s, Next(s, a));
  }

  lemma {:induction false} RunInv(s: State, steps: seq<Step>)
    requires Inv(s)
    ensures Inv(Exec(s, steps))
    decreases |steps|
  {
    hide Inv, Next, Enabled;
    if steps != [] {
      if Enabled(s, steps[0]) {
        StepInv(s, steps[0]);
        RunInv(Next(s, steps[0]), steps[1..]);
      } else {
        RunInv(s, steps[1..]);
      }
    }
  }

  // ----- what backtracks name -----

  /**
   * A backtrack names a thread branch point of the past and a thread that exists now, and comes
   * from another thread's access.
   */
  lemma MarkOrigin(s: State, op: Option<Operation>, st: M.RunState, m: (nat, nat)) returns (x: Access)
    requires Inv(s) && s.active.Some? && m in Marks(s.objs, Called(s, op, st), |s.threads|)
    ensures m.0 < |s.sizes| && s.sizes[m.0].Some? && m.1 < |s.threads|
    ensures x in DependsOn(s.objs, Called(s, op, st)[m.1]) && x.path == m.0 && x.who != m.1
  {
    var ths := Called(s, op, st);
    x := MarkThread(s.objs, ths, |ths|, m);
    DependsRemembered(s.objs, ths[m.1], x);
    assert AccessOk(s, x);
    assert ths[m.1].clock == s.threads[m.1].clock;
    if x.who == m.1 { LeqImpliesLex(x.clock, ths[m.1].clock); }
  }

  /** So in every execution. */
  lemma MarksNameThePast(n: nat, steps: seq<Step>, op: Option<Operation>, st: M.RunState, m: (nat, nat))
    requires n > 0 && Exec(Init(n), steps).active.Some?
    requires Exec(Init(n), steps).active.value < |Exec(Init(n), steps).threads|
    requires var s := Exec(Init(n), steps); m in Marks(s.objs, Called(s, op, st), |s.threads|)
    ensures var s := Exec(Init(n), steps);
            && m.0 < |s.sizes| && s.sizes[m.0].Some? && m.1 < |s.threads|
            && exists x: Access :: x in DependsOn(s.objs, Called(s, op, st)[m.1]) && x.path == m.0 && x.who != m.1
  {
    InitInv(n);
    RunInv(Init(n), steps);
    hide Exec, Marks, DependsOn;
    var x := MarkOrigin(Exec(Init(n), steps), op, st, m);
  }

  /** The scheduler panics exactly if some backtrack names a thread younger than the branch point. */
  lemma PanicsExactly(s: State, op: Option<Operation>, st: M.RunState, next: Option<nat>)
    requires Inv(s) && Enabled(s, Schedule(op, st, next))
    ensures Next(s, Schedule(op, st, next)).panicked <==>
              exists m :: m in Marks(s.objs, Called(s, op, st), |s.threads|)
                          && m.0 < |s.sizes| && s.sizes[m.0].Some? && s.sizes[m.0].value <= m.1
  {
    hide Marks, DependsOn, Inv;
    var marks := Marks(s.objs, Called(s, op, st), |s.threads|);
    forall m | m in marks ensures m.0 < |s.sizes| && s.sizes[m.0].Some? { var x := MarkOrigin(s, op, st, m); }
    assert Next(s, Schedule(op, st, next)).panicked <==> exists m :: m in marks && !Fits(s.sizes, m);
  }

  /**
   * An execution that panics: thread 0 starts thread 1, stores and ends; thread 1 starts thread 2
   * and ends; thread 2 is about to load what thread 0 stored when it did not exist.
   */
  function Younger(): seq<Step> {
    [NewObject(true), Spawn, Schedule(Some(Operation(0, Store)), M.Runnable, Some(0)),
     Schedule(None, M.Terminated, Some(1)), Spawn, Schedule(None, M.Terminated, Some(2)),
     Schedule(Some(Operation(0, Load)), M.Runnable, Some(2))]
  }

  /** The execution after its first `k` steps. */
  function After(k: nat): State
    requires k <= 6
  {
    var t0 := if k < 3 then Thread(M.Runnable, None, [0, 0, 0])
              else if k < 4 then Thread(M.Runnable, Some(Operation(0, Store)), [1, 0, 0])
              else Thread(M.Terminated, None, [1, 0, 0]);
    var t1 := Thread(if k < 6 then M.Runnable else M.Terminated, None, [0, 0, 0]);
    var t2 := Thread(M.Runnable, None, [0, 0, 0]);
    State(3, [t0, t1, t2][..if k < 2 then 1 else if k < 5 then 2 else 3],
          Some(if k < 4 then 0 else if k < 6 then 1 else 2),
          if k < 1 then [] else if k < 3 then [Atomic(None, None)] else [Atomic(None, Some(Access(0, [1, 0, 0], 0)))],
          [Some(2), Some(2), Some(3)][..if k < 3 then 0 else if k < 4 then 1 else if k < 6 then 2 else 3], false)
  }

  lemma StartsAt()
    ensures Init(3) == After(0)
  {
    assert Zero(3) == [0, 0, 0];
  }

  lemma CreatesObject()
    ensures Enabled(After(0), NewObject(true)) && Next(After(0), NewObject(true)) == After(1)
  {
  }

  lemma Spawns(k: nat)
    requires k == 1 || k == 4
    ensures Enabled(After(k), Spawn) && Next(After(k), Spawn) == After(k + 1)
  {
    assert Join(Zero(3), [0, 0, 0]) == [0, 0, 0];
    assert Next(After(k), Spawn).threads == After(k + 1).threads;
  }

  lemma NoMarks(objs: seq<Object>, ths: seq<Thread>, k: nat)
    requires k <= |ths| && forall t :: 0 <= t < k ==> DependsOn(objs, ths[t]) == []
    ensures Marks(objs, ths, k) == []
  {
  }

  lemma Stores()
    ensures var a := Schedule(Some(Operation(0, Store)), M.Runnable, Some(0));
            Enabled(After(2), a) && Next(After(2), a) == After(3)
  {
    var s, op := After(2), Some(Operation(0, Store));
    var ths := Called(s, op, M.Runnable);
    NoMarks(s.objs, ths, 2);
    assert Inc([0, 0, 0], 0) == [1, 0, 0];
    var s' := Next(s, Schedule(op, M.Runnable, Some(0)));
    assert s'.threads == After(3).threads && s'.objs == After(3).objs && s'.sizes == After(3).sizes;
  }

  lemma Ends(k: nat)
    requires k == 3 || k == 5
    ensures var a := Schedule(None, M.Terminated, Some(if k == 3 then 1 else 2));
            Enabled(After(k), a) && Next(After(k), a) == After(k + 1)
  {
    var s := After(k);
    var ths := Called(s, None, M.Terminated);
    NoMarks(s.objs, ths, |ths|);
    var s' := Next(s, Schedule(None, M.Terminated, Some(if k == 3 then 1 else 2)));
    assert s'.threads == After(k + 1).threads && s'.objs == After(k + 1).objs && s'.sizes == After(k + 1).sizes;
  }

  lemma Loads()
    ensures var a := Schedule(Some(Operation(0, Load)), M.Runnable, Some(2));
            Enabled(After(6), a) && Next(After(6), a).panicked
  {
    var s, op := After(6), Some(Operation(0, Load));
    var ths := Called(s, op, M.Runnable);
    var stored := Access(0, [1, 0, 0], 0);
    assert DependsOn(s.objs, ths[2]) == [stored] && !LexLeq([1, 0, 0], [0, 0, 0]);
    assert MarksOf([stored], [0, 0, 0], 2) == [(0, 2)] + MarksOf([stored][1..], [0, 0, 0], 2);
    NoMarks(s.objs, ths, 2);
    assert (0, 2) in Marks(s.objs, ths, 3);
    assert !Fits(s.sizes, (0, 2));
  }

  lemma OneStep(s: State, steps: seq<Step>, i: nat)
    requires i < |steps| && Enabled(s, steps[i])
    ensures Exec(s, steps[i..]) == Exec(Next(s, steps[i]), steps[i + 1..])
  {
    assert steps[i..][0] == steps[i] && steps[i..][1..] == steps[i + 1..];
  }

  lemma {:induction false} YoungerRuns(k: nat)
    requires k <= 6
    ensures Exec(After(k), Younger()[k..]).panicked
    decreases 6 - k
  {
    hide After, Exec, Enabled, Next;
    match k {
      case 0 => CreatesObject();
      case 1 => Spawns(1);
      case 2 => Stores();
      case 3 => Ends(3);
      case 4 => Spawns(4);
      case 5 => Ends(5);
      case _ => Loads();
    }
    OneStep(After(k), Younger(), k);
    if k < 6 {
      YoungerRuns(k + 1);
    } else {
      assert Younger()[7..] == [];
      NothingLeft(Next(After(6), Younger()[6]));
    }
  }

  lemma NothingLeft(s: State)
    ensures Exec(s, []) == s
  {
  }

  /** The checker indexes out of bounds on this program. */
  lemma YoungerPanics()
    ensures Exec(Init(3), Younger()).panicked
  {
    StartsAt();
    YoungerRuns(0);
    assert Younger()[0..] == Younger();
  }
}
