/**
 * A deterministic program on the checker's own scheduler and memory, as exploration sees it: the
 * branch points are those that the scheduler and the loads seed, the backtracks those that the
 * scheduler asks for.
 */
module Clients {
  import opened Wrappers
  import opened PathModel
  import PathTheorems
  import opened Explorer
  import opened Memory
  import M = MutexMachine
  import R = Reduction
  import H = ReductionHistory
  import G = Scheduling
  import V = VersionVectors
  import T = ExplorerTheorems
  import X = SimulatedAtomics

  /** What the active thread does between two branch points. */
  datatype Work = NewObject(atomic: bool) | Spawn | SetState(t: nat, state: M.RunState) | Access(c: Cmd)

  /** Where it stops: at the scheduler, with the operation that it is about to make, at a load, or at its end. */
  datatype Stop = AtSchedule(operation: Option<R.Operation>, state: M.RunState) | AtLoad(loc: nat, o: Order) | AtEnd

  datatype Turn = Turn(work: seq<Work>, stop: Stop)

  /** What the program does next is a function of the choices made so far, and of nothing else. */
  type Client = seq<Choice> -> Turn

  datatype System = System(red: R.State, mem: Mem)

  predicate HasActive(x: System) { x.red.active.Some? && x.red.active.value < |x.red.threads| }

  /** `None` is a panic. */
  ghost function DoWork(x: System, w: Work): Option<System> {
    if !HasActive(x) then None
    else
      var me := x.red.active.value;
      match w
      case NewObject(atomic) =>
        if R.Enabled(x.red, R.NewObject(atomic)) then Some(x.(red := R.Next(x.red, R.NewObject(atomic)))) else None
      case Spawn =>
        if R.Enabled(x.red, R.Spawn) && CmdOk(x.mem, me, SpawnCmd) then
          Some(System(R.Next(x.red, R.Spawn), Do(x.mem, me, SpawnCmd)))
        else None
      case SetState(t, st) =>
        if R.Enabled(x.red, R.SetState(t, st)) then Some(x.(red := R.Next(x.red, R.SetState(t, st)))) else None
      case Access(c) =>
        if !c.LoadCmd? && !c.SpawnCmd? && CmdOk(x.mem, me, c) then Some(x.(mem := Do(x.mem, me, c))) else None
  }

  ghost function DoAll(x: System, ws: seq<Work>): Option<System>
    decreases |ws|
  {
    if ws == [] then Some(x)
    else match DoWork(x, ws[0])
         case Some(y) => DoAll(y, ws[1..])
         case None => None
  }

  /** May the active thread stop there? */
  ghost predicate CanStop(x: System, s: Stop) {
    && HasActive(x)
    && match s
       case AtSchedule(op, st) => R.Enabled(x.red, R.Schedule(op, st, None))
       case AtLoad(l, _) =>
         && R.Enabled(x.red, R.ReadBranch) && WfMem(x.mem) && !x.mem.fault
         && x.red.active.value < |x.mem.x.threads| && l < |x.mem.locs|
       case AtEnd => false
  }

  /** The threads when the scheduler is called. */
  function Called(x: System, s: Stop): seq<M.Thread>
    requires HasActive(x) && s.AtSchedule?
  {
    G.States(R.Called(x.red, s.operation, s.state))
  }

  /** The branch point that is seeded there. */
  ghost function NodeOf(x: System, s: Stop): Option<Node> {
    if !CanStop(x, s) then None
    else match s
         case AtSchedule(_, _) => Some(Threads(G.SeedOf(Called(x, s), x.red.active.value)))
         case AtLoad(l, o) => Some(Writes(X.Candidates(x.mem.locs[l], x.mem.x.threads[x.red.active.value], o)))
         case AtEnd => None
  }

  /** The backtracks that the scheduler asks for there. */
  ghost function MarksAt(x: System, s: Stop): seq<(nat, nat)> {
    if s.AtSchedule? && CanStop(x, s)
    then R.Marks(x.red.objs, R.Called(x.red, s.operation, s.state), |x.red.threads|) else []
  }

  /** The branch point has been passed with choice `c`. */
  ghost function Pass(x: System, s: Stop, c: Choice): Option<System> {
    if !CanStop(x, s) then None
    else match (s, c)
         case (AtSchedule(op, st), Run(next)) =>
           if M.Pick(Called(x, s), next) && R.Enabled(x.red, R.Schedule(op, st, next))
              && !R.Next(x.red, R.Schedule(op, st, next)).panicked then
             Some(x.(red := R.Next(x.red, R.Schedule(op, st, next))))
           else None
         case (AtLoad(l, o), Read(i)) =>
           if CmdOk(x.mem, x.red.active.value, LoadCmd(l, i, o)) then
             Some(System(R.Next(x.red, R.ReadBranch), Do(x.mem, x.red.active.value, LoadCmd(l, i, o))))
           else None
         case _ => None
  }

  /** The root thread alone. */
  function Begin(n: nat): System { System(R.Init(n), InitMem(n)) }

  /** The system when, after the choices `q`, the active thread has come to its next stop. */
  ghost function After(c: Client, n: nat, q: seq<Choice>): Option<System>
    decreases |q|
  {
    if q == [] then DoAll(Begin(n), c([]).work)
    else match After(c, n, q[..|q| - 1])
         case None => None
         case Some(x) =>
           match Pass(x, c(q[..|q| - 1]).stop, q[|q| - 1])
           case Some(y) => DoAll(y, c(q).work)
           case None => None
  }

  ghost function NextNode(c: Client, n: nat, q: seq<Choice>): Option<Node> {
    match After(c, n, q)
    case Some(x) => NodeOf(x, c(q).stop)
    case None => None
  }

  ghost function NextMarks(c: Client, n: nat, q: seq<Choice>): seq<(nat, nat)> {
    match After(c, n, q)
    case Some(x) => MarksAt(x, c(q).stop)
    case None => []
  }

  /** The client as exploration sees it. */
  ghost function ProgramOf(c: Client, n: nat): Program { Program(q => NextNode(c, n, q), q => NextMarks(c, n, q)) }

  /** Executions are short and histories are small. */
  ghost predicate Bounded(c: Client, n: nat, depth: nat, breadth: nat) {
    && n <= breadth
    && forall q :: NextNode(c, n, q).Some? ==>
         |q| < depth && (NextNode(c, n, q).value.Writes? ==> |NextNode(c, n, q).value.ws| <= breadth + 1)
  }

  // ----- the branch points recorded so far -----

  /** The reduction has recorded the branch points of the choices so far, with as many threads as were seeded. */
  ghost predicate Recorded(c: Client, n: nat, q: seq<Choice>, sizes: seq<Option<nat>>) {
    && |sizes| == |q|
    && forall i :: 0 <= i < |q| && sizes[i].Some? ==>
         && NextNode(c, n, q[..i]).Some? && NextNode(c, n, q[..i]).value.Threads?
         && |NextNode(c, n, q[..i]).value.ts| == sizes[i].value
  }

  ghost predicate SystemOk(c: Client, n: nat, q: seq<Choice>, x: System) {
    R.Inv(x.red) && x.red.n == n && Recorded(c, n, q, x.red.sizes)
  }

  lemma WorkKeeps(x: System, w: Work)
    requires R.Inv(x.red) && DoWork(x, w).Some?
    ensures var y := DoWork(x, w).value; R.Inv(y.red) && y.red.n == x.red.n && y.red.sizes == x.red.sizes
  {
    hide R.Inv;
    match w
    case NewObject(atomic) => R.StepInv(x.red, R.NewObject(atomic));
    case Spawn => R.StepInv(x.red, R.Spawn);
    case SetState(t, st) => R.StepInv(x.red, R.SetState(t, st));
    case Access(_) =>
  }

  lemma {:induction false} AllKeeps(x: System, ws: seq<Work>)
    requires R.Inv(x.red) && DoAll(x, ws).Some?
    ensures var y := DoAll(x, ws).value; R.Inv(y.red) && y.red.n == x.red.n && y.red.sizes == x.red.sizes
    decreases |ws|
  {
    hide R.Inv, DoWork;
    if ws != [] {
      WorkKeeps(x, ws[0]);
      AllKeeps(DoWork(x, ws[0]).value, ws[1..]);
    }
  }

  lemma AccessSizes(s: R.State, ths: seq<R.Thread>, t: nat, path: nat)
    requires t < |ths| && t < |ths[t].clock|
    requires forall x :: x in R.DependsOn(s.objs, ths[t]) ==> |x.clock| == |ths[t].clock|
    ensures R.MakeAccess(s, ths, t, path).sizes == s.sizes && R.MakeAccess(s, ths, t, path).n == s.n
  {
  }

  lemma ScheduleSizes(s: R.State, op: Option<R.Operation>, st: M.RunState, next: Option<nat>)
    requires R.Enabled(s, R.Schedule(op, st, next)) && !R.Next(s, R.Schedule(op, st, next)).panicked
    ensures var s' := R.Next(s, R.Schedule(op, st, next)); s'.n == s.n && s'.sizes == s.sizes + [Some(|s.threads|)]
  {
    hide R.MakeAccess, R.Marks, R.DependsOn;
    if next.Some? {
      var ths := R.Called(s, op, st);
      R.DependsShaped(s, ths[next.value]);
      AccessSizes(s.(sizes := s.sizes + [Some(|ths|)], active := next), ths, next.value, |s.sizes|);
    }
  }

  lemma PassKeeps(x: System, s: Stop, c: Choice)
    requires R.Inv(x.red) && Pass(x, s, c).Some?
    ensures NodeOf(x, s).Some?
    ensures var y := Pass(x, s, c).value;
            && R.Inv(y.red) && y.red.n == x.red.n && |y.red.sizes| == |x.red.sizes| + 1 && x.red.sizes <= y.red.sizes
            && (y.red.sizes[|x.red.sizes|].Some? ==>
                  NodeOf(x, s).value.Threads? && |NodeOf(x, s).value.ts| == y.red.sizes[|x.red.sizes|].value)
  {
    hide R.Inv, R.Next, M.Pick;
    match s {
      case AtSchedule(op, st) =>
        ScheduleSizes(x.red, op, st, c.thread);
        R.StepInv(x.red, R.Schedule(op, st, c.thread));
      case AtLoad(_, _) =>
        ReadSizes(x.red);
        R.StepInv(x.red, R.ReadBranch);
      case AtEnd =>
    }
  }

  lemma ReadSizes(s: R.State)
    requires R.Enabled(s, R.ReadBranch)
    ensures R.Next(s, R.ReadBranch).n == s.n && R.Next(s, R.ReadBranch).sizes == s.sizes + [None]
  {
  }

  /** In every execution. */
  lemma {:induction false} AfterOk(c: Client, n: nat, q: seq<Choice>)
    requires n > 0 && After(c, n, q).Some?
    ensures SystemOk(c, n, q, After(c, n, q).value)
    decreases |q|
  {
    hide R.Inv, DoAll, Pass, NodeOf;
    if q == [] {
      R.InitInv(n);
      AllKeeps(Begin(n), c([]).work);
    } else {
      var p := q[..|q| - 1];
      var x := After(c, n, p).value;
      AfterOk(c, n, p);
      PassKeeps(x, c(p).stop, q[|q| - 1]);
      var y := Pass(x, c(p).stop, q[|q| - 1]).value;
      AllKeeps(y, c(q).work);
      forall i | 0 <= i < |q| && y.red.sizes[i].Some?
        ensures NextNode(c, n, q[..i]).Some? && NextNode(c, n, q[..i]).value.Threads?
        ensures |NextNode(c, n, q[..i]).value.ts| == y.red.sizes[i].value
      {
        if i < |p| { assert q[..i] == p[..i] && y.red.sizes[i] == x.red.sizes[i]; }
      }
    }
  }

  // ----- the client is as exploration needs it -----

  lemma NodeSeeded(c: Client, n: nat, q: seq<Choice>, depth: nat, breadth: nat)
    requires n > 0 && Bounded(c, n, depth, breadth) && NextNode(c, n, q).Some?
    ensures Seeded(NextNode(c, n, q).value, breadth)
  {
    AfterOk(c, n, q);
    var x, s := After(c, n, q).value, c(q).stop;
    match s {
      case AtSchedule(_, _) => G.SeedIsSeeded(Called(x, s), x.red.active.value);
      case AtLoad(l, o) => X.CandidatesReadable(x.mem.locs[l], x.mem.x.threads[x.red.active.value], o);
      case AtEnd =>
    }
  }

  lemma MarkNamesPast(c: Client, n: nat, q: seq<Choice>, k: nat)
    requires n > 0 && k < |NextMarks(c, n, q)|
    ensures MarkOk(ProgramOf(c, n), q, NextMarks(c, n, q)[k])
  {
    hide R.Inv, R.Marks;
    AfterOk(c, n, q);
    var x, s := After(c, n, q).value, c(q).stop;
    var m := NextMarks(c, n, q)[k];
    var origin := R.MarkOrigin(x.red, s.operation, s.state, m);
  }

  /** What the exploration theorems ask of a program holds of every client with short executions. */
  lemma ClientWellBehaved(c: Client, n: nat, depth: nat, breadth: nat)
    requires n > 0 && Bounded(c, n, depth, breadth)
    ensures WellBehaved(ProgramOf(c, n), depth, breadth)
  {
    hide Seeded, MarkOk, After;
    var p := ProgramOf(c, n);
    forall q | p.next(q).Some? ensures |q| < depth && Seeded(p.next(q).value, breadth) {
      NodeSeeded(c, n, q, depth, breadth);
    }
    forall q, k | 0 <= k < |p.marks(q)| ensures MarkOk(p, q, p.marks(q)[k]) { MarkNamesPast(c, n, q, k); }
  }

  // ----- what a finished exploration of a client has done -----

  /** The exploration has come to its end without a panic. */
  ghost predicate Done(c: Client, n: nat, log: seq<seq<Node>>, depth: nat, breadth: nat) {
    && n > 0 && Bounded(c, n, depth, breadth)
    && log != [] && Explored(ProgramOf(c, n), log) && Successor(log[|log| - 1]) == None
    && forall k :: 0 <= k < |log| ==> After(c, n, Choices(log[k])).Some?
  }

  lemma DoneFinished(c: Client, n: nat, log: seq<seq<Node>>, depth: nat, breadth: nat)
    requires Done(c, n, log, depth, breadth)
    ensures T.Finished(ProgramOf(c, n), log, depth, breadth)
  {
    hide Bounded, WellBehaved, Explored;
    ClientWellBehaved(c, n, depth, breadth);
  }

  /** A branch point on a path is where the client branches after the choices before it. */
  lemma BranchThere(c: Client, n: nat, log: seq<seq<Node>>, k: nat, i: nat)
    requires Explored(ProgramOf(c, n), log) && k < |log| && i < |log[k]|
    ensures var q := Choices(log[k])[..i];
            && After(c, n, q).Some? && CanStop(After(c, n, q).value, c(q).stop)
            && NextNode(c, n, q).Some? && Shape(NextNode(c, n, q).value, log[k][i])
  {
    hide After, Shape, CanStop;
    T.ExecutedAt(ProgramOf(c, n), log, k);
    assert Follows(ProgramOf(c, n), log[k]);
  }

  /** The writes that a load finds, newest first, and those that it may return. */
  ghost predicate LoadFinds(c: Client, n: nat, q: seq<Choice>, w: nat) {
    && After(c, n, q).Some? && c(q).stop.AtLoad? && CanStop(After(c, n, q).value, c(q).stop)
    && var x := After(c, n, q).value.mem;
    var me := After(c, n, q).value.red.active.value;
    x.locs[c(q).stop.loc] != [] && Readable(x.locs[c(q).stop.loc], w, x.x.threads[me], c(q).stop.o)
  }

  lemma Found(c: Client, n: nat, q: seq<Choice>, w: nat)
    requires c(q).stop.AtLoad? && NextNode(c, n, q).Some?
    ensures NextNode(c, n, q).value.Writes? && (w in NextNode(c, n, q).value.ws <==> LoadFinds(c, n, q, w))
  {
    var x := After(c, n, q).value;
    X.CandidatesReadable(x.mem.locs[c(q).stop.loc], x.mem.x.threads[x.red.active.value], c(q).stop.o);
    hide After;
  }

  lemma WriteOffered(n: Node, w: nat)
    requires n.Writes? && w in n.ws
    ensures Offered(n, Read(w))
  {
    if w != n.ws[0] { assert w in n.ws[1..]; }
  }

  lemma WriteChosen(s: Node, n: Node, w: nat)
    requires s.Writes? && Shape(s, n) && GoodNode(n) && ChoiceOf(n) == Read(w)
    ensures w in s.ws
  {
    assert s.ws[|s.ws| - |n.ws|] == s.ws[|s.ws| - |n.ws|..][0];
  }

  /**
   * At every load that some execution reaches, the writes that executions have gone on with, after
   * the same choices, are exactly those that the load may return.
   */
  lemma LoadsExhausted(c: Client, n: nat, log: seq<seq<Node>>, k: nat, i: nat, w: nat, depth: nat, breadth: nat)
    requires Done(c, n, log, depth, breadth) && k < |log| && i < |log[k]| && c(Choices(log[k])[..i]).stop.AtLoad?
    ensures var q := Choices(log[k])[..i]; PathTheorems.Taken(log, q + [Read(w)]) <==> LoadFinds(c, n, q, w)
  {
    hide After, LoadFinds, Offered, Shape, Explored;
    hide Bounded, WellBehaved, GoodNode, PathTheorems.Taken, CanStop, Choices;
    var q := Choices(log[k])[..i];
    DoneFinished(c, n, log, depth, breadth);
    BranchThere(c, n, log, k, i);
    Found(c, n, q, w);
    if LoadFinds(c, n, q, w) {
      WriteOffered(NextNode(c, n, q).value, w);
      T.SeedsTaken(ProgramOf(c, n), log, k, i, Read(w), depth, breadth);
    }
    if PathTheorems.Taken(log, q + [Read(w)]) {
      var m := T.TakenBy(log, q + [Read(w)]);
      SamePrefix(log[m], q, w);
      BranchThere(c, n, log, m, i);
      T.ExecutedGood(ProgramOf(c, n), log, m, i);
      WriteChosen(NextNode(c, n, q).value, log[m][i], w);
    }
  }

  lemma SamePrefix(u: seq<Node>, q: seq<Choice>, w: nat)
    requires q + [Read(w)] <= Choices(u)
    ensures |q| < |u| && Choices(u)[..|q|] == q && ChoiceOf(u[|q|]) == Read(w)
  {
    assert Choices(u)[|q|] == (q + [Read(w)])[|q|];
  }

  // ----- races -----

  /** The steps of the reduction that a stretch of work is. */
  function WorkSteps(ws: seq<Work>): seq<R.Step>
    decreases |ws|
  {
    if ws == [] then []
    else
      var rest := WorkSteps(ws[1..]);
      match ws[0]
      case NewObject(atomic) => [R.NewObject(atomic)] + rest
      case Spawn => [R.Spawn] + rest
      case SetState(t, st) => [R.SetState(t, st)] + rest
      case Access(_) => rest
  }

  /** The step that passing a branch point is. */
  function PassStep(s: Stop, c: Choice): R.Step {
    match (s, c)
    case (AtSchedule(op, st), Run(next)) => R.Schedule(op, st, next)
    case _ => R.ReadBranch
  }

  /** All steps of the client's execution up to its stop after the choices `q`. */
  function StepsOf(c: Client, q: seq<Choice>): seq<R.Step>
    decreases |q|
  {
    if q == [] then WorkSteps(c([]).work)
    else
      StepsOf(c, q[..|q| - 1]) + [PassStep(c(q[..|q| - 1]).stop, q[|q| - 1])] + WorkSteps(c(q).work)
  }

  lemma {:induction false} ExecMore(s: R.State, xs: seq<R.Step>, ys: seq<R.Step>)
    ensures R.Exec(s, xs + ys) == R.Exec(R.Exec(s, xs), ys)
    decreases |xs|
  {
    hide R.Enabled, R.Next;
    if xs == [] {
      assert xs + ys == ys;
    } else {
      assert (xs + ys)[0] == xs[0] && (xs + ys)[1..] == xs[1..] + ys;
      ExecMore(if R.Enabled(s, xs[0]) then R.Next(s, xs[0]) else s, xs[1..], ys);
    }
  }

  lemma ExecOne(s: R.State, a: R.Step)
    requires R.Enabled(s, a)
    ensures R.Exec(s, [a]) == R.Next(s, a)
  {
    hide R.Enabled, R.Next;
    assert [a][1..] == [];
  }

  lemma {:induction false} WorkDone(x: System, ws: seq<Work>)
    requires DoAll(x, ws).Some?
    ensures DoAll(x, ws).value.red == R.Exec(x.red, WorkSteps(ws))
    decreases |ws|
  {
    hide R.Enabled, R.Next, R.Exec;
    if ws == [] {
      ExecNothing(x.red);
    } else {
      var y := DoWork(x, ws[0]).value;
      WorkDone(y, ws[1..]);
      match ws[0] {
        case NewObject(atomic) =>
          ExecMore(x.red, [R.NewObject(atomic)], WorkSteps(ws[1..]));
          ExecOne(x.red, R.NewObject(atomic));
        case Spawn =>
          ExecMore(x.red, [R.Spawn], WorkSteps(ws[1..]));
          ExecOne(x.red, R.Spawn);
        case SetState(t, st) =>
          ExecMore(x.red, [R.SetState(t, st)], WorkSteps(ws[1..]));
          ExecOne(x.red, R.SetState(t, st));
        case Access(_) =>
      }
    }
  }

  lemma ExecNothing(s: R.State)
    ensures R.Exec(s, []) == s
  {
  }

  lemma Passed(x: System, s: Stop, c: Choice)
    requires Pass(x, s, c).Some?
    ensures R.Enabled(x.red, PassStep(s, c)) && Pass(x, s, c).value.red == R.Next(x.red, PassStep(s, c))
  {
    hide R.Enabled, R.Next, M.Pick;
  }

  /** The state of the scheduler is the one that these steps lead to. */
  lemma {:induction false} StepsLead(c: Client, n: nat, q: seq<Choice>)
    requires After(c, n, q).Some?
    ensures After(c, n, q).value.red == R.Exec(R.Init(n), StepsOf(c, q))
    decreases |q|
  {
    hide R.Enabled, R.Next, R.Exec, DoAll, Pass, WorkSteps, PassStep;
    if q == [] {
      WorkDone(Begin(n), c([]).work);
    } else {
      var p := q[..|q| - 1];
      StepsLead(c, n, p);
      var x := After(c, n, p).value;
      var step := PassStep(c(p).stop, q[|q| - 1]);
      Passed(x, c(p).stop, q[|q| - 1]);
      ExecMore(R.Init(n), StepsOf(c, p), [step]);
      ExecOne(x.red, step);
      WorkDone(Pass(x, c(p).stop, q[|q| - 1]).value, c(q).work);
      ExecMore(R.Init(n), StepsOf(c, p) + [step], WorkSteps(c(q).work));
    }
  }

  /** What the client's threads have accessed, and are about to. */
  ghost function LogOf(c: Client, n: nat, q: seq<Choice>): H.Log { H.Logged(H.NOTHING, R.Init(n), StepsOf(c, q)) }

  /**
   * When the scheduler is called after `q`, thread `t` is about to make an operation that depends
   * on the `e`-th access so far, of which it does not know.
   */
  ghost predicate RaceSeen(c: Client, n: nat, q: seq<Choice>, t: nat, e: nat) {
    && After(c, n, q).Some? && c(q).stop.AtSchedule? && CanStop(After(c, n, q).value, c(q).stop)
    && H.Racing(LogOf(c, n, q), After(c, n, q).value.red, c(q).stop.operation, t, e)
  }

  lemma RaceMarked(c: Client, n: nat, q: seq<Choice>, t: nat, e: nat) returns (k: nat)
    requires RaceSeen(c, n, q, t, e)
    ensures e < |LogOf(c, n, q).events|
    ensures k < |NextMarks(c, n, q)| && NextMarks(c, n, q)[k] == (LogOf(c, n, q).events[e].path, t)
  {
    hide R.Marks, After, H.Logged, R.Exec;
    StepsLead(c, n, q);
    var s := c(q).stop;
    H.MarksExact(n, StepsOf(c, q), s.operation, s.state, None, LogOf(c, n, q).events[e].path, t);
    assert (LogOf(c, n, q).events[e].path, t) in NextMarks(c, n, q);
    k :| 0 <= k < |NextMarks(c, n, q)| && NextMarks(c, n, q)[k] == (LogOf(c, n, q).events[e].path, t);
  }

  /**
   * Every race that the scheduler sees in any execution is explored the other way round: the
   * thread has been run, after the same choices, where the access was scheduled, unless it could
   * not run there.
   */
  lemma RacesReversed(c: Client, n: nat, log: seq<seq<Node>>, k: nat, j: nat, t: nat, e: nat, depth: nat,
          breadth: nat)
    requires Done(c, n, log, depth, breadth) && k < |log| && j <= |log[k]| && RaceSeen(c, n, Choices(log[k])[..j], t, e)
    ensures var events := LogOf(c, n, Choices(log[k])[..j]).events; e < |events| && events[e].path < j
    ensures var q := Choices(log[k])[..LogOf(c, n, Choices(log[k])[..j]).events[e].path];
            && After(c, n, q).Some? && c(q).stop.AtSchedule? && CanStop(After(c, n, q).value, c(q).stop)
            && var ts := Called(After(c, n, q).value, c(q).stop);
            t < |ts| && (ts[t].state != M.Runnable || PathTheorems.Taken(log, q + [Run(Some(t))]))
  {
    hide After, RaceSeen, Explored, Bounded, WellBehaved, PathTheorems.Taken, Choices, CanStop, MarkOk, Successor;
    var q := Choices(log[k])[..j];
    DoneFinished(c, n, log, depth, breadth);
    var x := RaceMarked(c, n, q, t, e);
    var i := LogOf(c, n, q).events[e].path;
    hide LogOf;
    T.BacktracksTaken(ProgramOf(c, n), log, k, j, x, depth, breadth);
    T.MarkAsked(ProgramOf(c, n), q, x, depth, breadth);
    MarkInPast(c, n, q, (i, t));
    SeedDisables(c, n, Choices(log[k])[..i], t);
  }

  lemma MarkInPast(c: Client, n: nat, q: seq<Choice>, m: (nat, nat))
    requires MarkOk(ProgramOf(c, n), q, m)
    ensures m.0 < |q|
  {
    hide After;
  }

  lemma SeedDisables(c: Client, n: nat, q: seq<Choice>, t: nat)
    requires NextNode(c, n, q).Some? && NextNode(c, n, q).value.Threads? && t < |NextNode(c, n, q).value.ts|
    ensures After(c, n, q).Some? && c(q).stop.AtSchedule? && CanStop(After(c, n, q).value, c(q).stop)
    ensures var ts := Called(After(c, n, q).value, c(q).stop);
            t < |ts| && (NextNode(c, n, q).value.ts[t] == Disabled <==> ts[t].state != M.Runnable)
  {
    hide After;
    var x := After(c, n, q).value;
    G.SeedIsSeeded(Called(x, c(q).stop), x.red.active.value);
  }
}
