/**
 * The semaphore together with the `AtomicTask` of each waiter's node: `poll_permit` registers the
 * task before it queues the node, and `notify` calls it after it has assigned the permit.
 */
module SemaphoreTasks {
  import opened Wrappers
  import S = SemaphoreMachine
  import I = SemaphoreInvariant
  import R = SemaphoreRuns
  import T = SemaphoreTheorems
  import P = SemaphoreProgress
  import W = SemaphoreWord
  import A = AtomicTaskMachine
  import L = AtomicTaskTheorems
  import C = AtomicTaskCode

  /** In a waiter's cell the task is thread 0 and releasing thread `r` is thread `r + 1`. */
  const TASK: nat := 0

  /**
   * The semaphore and the task cells.  `registered` holds the waiters whose poll in progress has
   * begun to register its task.  The others are history: who last assigned a permit to a waiter,
   * and how often the task of its last poll had been notified by then.
   */
  datatype State =
    State(s: S.State, cells: map<nat, A.State>, registered: set<nat>, teller: map<nat, nat>, told: map<nat, nat>)

  datatype Action = Sem(a: S.Action) | Register(w: nat) | CellStep(w: nat, i: nat)

  /** The task of waiter `w` is not inside `register`. */
  predicate TaskFree(p: State, w: nat) {
    w in p.cells && TASK in p.cells[w].threads && p.cells[w].threads[TASK] == A.Resting
  }

  /** Releasing thread `r` is not inside `Task::notify` of any node. */
  predicate TellerFree(p: State, r: nat) {
    forall w :: w in p.cells ==> r + 1 in p.cells[w].threads && p.cells[w].threads[r + 1] == A.Resting
  }

  predicate Enabled(p: State, a: Action) {
    match a
    case Sem(b) =>
      S.Enabled(p.s, b) &&
      (match b
       case PollCall(w, _) => TaskFree(p, w)
       case PollStep(w) => TaskFree(p, w) && (p.s.waiters[w].pc.LoadNodeState? ==> w in p.registered)
       case Acquire(w) => TaskFree(p, w)
       case Cancel(w) => TaskFree(p, w)
       case ReleaseCall(r) => TellerFree(p, r)
       case ReleaseStep(r) => TellerFree(p, r))
    case Register(w) =>
      && !p.s.fault && w in p.s.waiters && p.s.waiters[w].pc.LoadNodeState? && w !in p.registered
      && TaskFree(p, w) && A.Enabled(p.cells[w], A.Register(TASK))
    case CellStep(w, i) => w in p.cells && A.Enabled(p.cells[w], A.Step(i))
  }

  /** The waiter that this step assigns a permit to. */
  function Assignee(s: S.State, b: S.Action): Option<nat>
    requires S.Enabled(s, b)
  {
    if b.ReleaseStep? && R.Hands(s, b.r) then Some(s.rel[b.r].pc.w) else None
  }

  /** How often the task of the last poll has been notified. */
  function TimesTold(c: A.State): nat { if c.issued > 0 then c.notified[c.issued - 1] else 0 }

  function Next(p: State, a: Action): State
    requires Enabled(p, a)
  {
    match a
    case Sem(b) =>
      var w := Assignee(p.s, b);
      var q := p.(s := S.Next(p.s, b),
                  registered := if b.PollStep? && p.s.waiters[b.w].pc.LoadNodeState? then p.registered - {b.w}
                                else p.registered);
      if w.Some? && w.value in p.cells && A.Enabled(p.cells[w.value], A.Notify(b.r + 1)) then
        q.(cells := p.cells[w.value := A.Next(p.cells[w.value], A.Notify(b.r + 1))],
           teller := p.teller[w.value := b.r + 1], told := p.told[w.value := TimesTold(p.cells[w.value])])
      else q
    case Register(w) =>
      p.(cells := p.cells[w := A.Next(p.cells[w], A.Register(TASK))], registered := p.registered + {w})
    case CellStep(w, i) => p.(cells := p.cells[w := A.Next(p.cells[w], A.Step(i))])
  }

  function Init(permits: nat, ws: set<nat>, rs: set<nat>): State
    requires permits > 0
  {
    State(S.Init(permits, ws, rs), map w | w in ws :: A.Init({TASK} + set r | r in rs :: r + 1, {TASK}),
          {}, map[], map[])
  }

  function Exec(p: State, acts: seq<Action>): State
    decreases |acts|
  {
    if acts == [] then p else Exec(if Enabled(p, acts[0]) then Next(p, acts[0]) else p, acts[1..])
  }

  // ----- the invariant -----

  ghost predicate CellOk(c: A.State) {
    L.Inv(c) && L.ClientInv(c, TASK) && c.asleep == None
  }

  /** Has the poll in progress registered the task, or a poll whose request stands? */
  predicate Asked(x: S.Waiter) {
    x.state == S.QueuedWaiting || x.state == S.Assigned || x.pc.CasNodeState?
  }

  /** The last registration has been called for, or will be at once by the thread that assigned the permit. */
  predicate CalledFor(c: A.State, teller: Option<nat>) {
    && c.issued > 0
    && (c.issued - 1 in c.late || (teller.Some? && teller.value in c.threads && c.threads[teller.value].FetchOr?))
  }

  function TellerOf(p: State, w: nat): Option<nat> { if w in p.teller then Some(p.teller[w]) else None }

  predicate TaskOk(p: State, w: nat)
    requires w in p.s.waiters && w in p.cells
  {
    var x, c := p.s.waiters[w], p.cells[w];
    && TASK in c.threads
    && (w in p.registered ==> c.issued > 0 && x.pc.LoadNodeState?)
    && (Asked(x) ==> c.issued > 0 && L.OwnTask(c.threads[TASK]) == None)
    && (x.state == S.Assigned ==> CalledFor(c, TellerOf(p, w)))
  }

  ghost predicate Inv(p: State) {
    && I.Inv(p.s)
    && p.cells.Keys == p.s.waiters.Keys
    && (forall w :: w in p.cells ==> CellOk(p.cells[w]))
    && (forall w :: w in p.cells ==> TaskOk(p, w))
    && (forall w, r :: w in p.cells && r in p.s.rel ==> r + 1 in p.cells[w].threads)
  }

  lemma InitInv(permits: nat, ws: set<nat>, rs: set<nat>)
    requires permits > 0
    ensures Inv(Init(permits, ws, rs))
  {
    T.InitInv(permits, ws, rs);
    var p := Init(permits, ws, rs);
    var ts := {TASK} + set r | r in rs :: r + 1;
    L.InitInv(ts, {TASK});
    assert TASK in ts;
    forall r | r in p.s.rel ensures r + 1 in ts { assert r in rs; }
    assert p.cells.Keys == p.s.waiters.Keys;
  }

  // ----- what a step of the semaphore does to a waiter -----

  /** How a step of the semaphore may change a waiter. */
  predicate Moves(s: S.State, b: S.Action, v: nat)
    requires S.Enabled(s, b) && v in s.waiters
  {
    var s' := S.Next(s, b);
    v in s'.waiters &&
    var x, x' := s.waiters[v], s'.waiters[v];
    && (x'.state == S.Assigned ==> x.state == S.Assigned || Assignee(s, b) == Some(v))
    && (Asked(x') ==> Asked(x) || (b == S.PollStep(v) && x.pc.LoadNodeState?))
    && (x.pc.LoadNodeState? && b != S.PollStep(v) ==> x'.pc == x.pc)
  }

  lemma PollMovesOwn(s: S.State, w: nat)
    requires S.Enabled(s, S.PollStep(w)) && I.PollOk(s, w)
    ensures Moves(s, S.PollStep(w), w)
  {
    match s.waiters[w].pc
    case PollCas(_, _, _) =>
    case LoadNodeState(_) =>
    case CasNodeState(_, _) =>
    case ClearNext(_) =>
    case LinkPrev(_, _) =>
    case Revert =>
  }

  lemma PollMovesOther(s: S.State, w: nat, v: nat)
    requires S.Enabled(s, S.PollStep(w)) && v in s.waiters && v != w
    ensures Moves(s, S.PollStep(w), v)
  {
    match s.waiters[w].pc
    case PollCas(_, _, _) =>
    case LoadNodeState(_) =>
    case CasNodeState(_, _) =>
    case ClearNext(_) =>
    case LinkPrev(_, _) =>
    case Revert =>
  }

  lemma ReleaseMoves(s: S.State, r: nat, v: nat)
    requires I.Inv(s) && S.Enabled(s, S.ReleaseStep(r)) && v in s.waiters
    ensures Moves(s, S.ReleaseStep(r), v)
  {
    R.StateKept(s, r, v);
    PcsStay(s, r, v);
    hide I.Inv, S.ReleaseNext;
  }

  lemma PcsStay(s: S.State, r: nat, v: nat)
    requires S.Enabled(s, S.ReleaseStep(r)) && v in s.waiters
    ensures v in S.ReleaseNext(s, r).waiters && S.ReleaseNext(s, r).waiters[v].pc == s.waiters[v].pc
  {
    P.PcKept(s, r, v);
  }

  /** The actions that are not steps inside a call. */
  lemma CallMoves(s: S.State, b: S.Action, v: nat)
    requires S.Enabled(s, b) && v in s.waiters && !b.PollStep? && !b.ReleaseStep?
    requires b.PollCall? ==> I.PollOk(s, b.w)
    ensures Moves(s, b, v)
  {
    match b
    case PollCall(_, _) =>
    case Acquire(_) =>
    case Cancel(_) =>
    case ReleaseCall(_) =>
  }

  lemma StepMoves(s: S.State, b: S.Action, v: nat)
    requires I.Inv(s) && S.Enabled(s, b) && v in s.waiters
    ensures Moves(s, b, v)
  {
    hide S.Next, S.PollNext, S.ReleaseNext, I.PollOk, I.Inv, Moves;
    match b
    case PollStep(w) =>
      PollsOk(s, w);
      if v == w { PollMovesOwn(s, w); } else { PollMovesOther(s, w, v); }
    case ReleaseStep(r) => ReleaseMoves(s, r, v);
    case PollCall(w, _) => PollsOk(s, w); CallMoves(s, b, v);
    case _ => CallMoves(s, b, v);
  }

  lemma PollsOk(s: S.State, w: nat)
    requires I.Inv(s) && w in s.waiters
    ensures I.PollOk(s, w)
  {
    hide I.PollOk;
  }

  lemma KeysStay(s: S.State, b: S.Action, v: nat)
    requires S.Enabled(s, b)
    ensures (v in S.Next(s, b).waiters <==> v in s.waiters) && (v in S.Next(s, b).rel <==> v in s.rel)
  {
    match b
    case PollStep(w) => W.PollSees(s, w, v); hide S.PollNext;
    case ReleaseStep(r) => P.PcKept(s, r, v); W.ReleaseSees(s, r, v); hide S.ReleaseNext;
    case _ =>
  }

  // ----- what a step does to a cell -----

  lemma CellKept(c: A.State, a: A.Action)
    requires CellOk(c) && A.Enabled(c, a) && !a.Check?
    ensures CellOk(A.Next(c, a))
  {
    L.StepInv(c, a);
    L.StepClient(c, a, TASK);
    AwakeStays(c, a);
    hide L.Inv, L.ClientInv, A.Next;
  }

  lemma AwakeStays(c: A.State, a: A.Action)
    requires L.LockInv(c) && A.Enabled(c, a) && !a.Check? && c.asleep == None
    ensures var c' := A.Next(c, a); c'.asleep == None && c'.threads.Keys == c.threads.Keys
  {
    hide A.RegisterStep, A.NotifyStep;
    match a
    case Step(i) =>
      if A.Registering(c.threads[i]) {
        L.RegisterOwn(c, i);
        L.RegisterMoves(c, i);
      } else {
        NotifyAwake(c, i);
        L.NotifyMoves(c, i);
      }
    case _ =>
  }

  lemma NotifyAwake(c: A.State, i: nat)
    requires A.Enabled(c, A.Step(i)) && !A.Registering(c.threads[i])
    ensures A.NotifyStep(c, i).asleep == c.asleep
  {
    hide A.FetchOrNotifying, A.FetchAndNotNotifying;
  }

  lemma StepIssued(c: A.State, i: nat)
    requires CellOk(c) && A.Enabled(c, A.Step(i))
    ensures A.Next(c, A.Step(i)).issued == c.issued
  {
    if A.Registering(c.threads[i]) { L.RegisterHomes(c, i, TASK); } else { L.NotifyHomes(c, i); }
    hide A.RegisterStep, A.NotifyStep, CellOk;
  }

  /** The task is outside `register`, so only notifiers move, and what they were told stays told. */
  lemma StepTells(c: A.State, i: nat, teller: Option<nat>)
    requires CellOk(c) && A.Enabled(c, A.Step(i)) && TASK in c.threads && L.OwnTask(c.threads[TASK]) == None
    ensures var c' := A.Next(c, A.Step(i));
            && TASK in c'.threads && L.OwnTask(c'.threads[TASK]) == None
            && (CalledFor(c, teller) ==> CalledFor(c', teller))
  {
    assert L.ThreadOk(c, i);
    assert i == TASK ==> !A.Registering(c.threads[i]);
    assert !A.Registering(c.threads[i]);
    StepIssued(c, i);
    L.NotifyOwn(c, i, TASK);
    if CalledFor(c, teller) { NotifyTells(c, i, teller); }
    hide A.NotifyStep, CellOk, CalledFor;
  }

  lemma NotifyTells(c: A.State, i: nat, teller: Option<nat>)
    requires A.Enabled(c, A.Step(i)) && !A.Registering(c.threads[i]) && L.LockInv(c)
    requires c.issued > 0 && c.issued - 1 in c.completed && CalledFor(c, teller)
    ensures CalledFor(A.NotifyStep(c, i), teller)
  {
    assert L.ThreadOk(c, i);
    hide A.FetchOrNotifying, A.FetchAndNotNotifying, L.ThreadOk;
    match c.threads[i]
    case FetchOr =>
    case NotTake =>
    case NotRelease(_) =>
    case Calling(_, _) =>
  }

  // ----- the invariant is kept -----

  /** Only cell `w` changes; its own invariant and the promise to its waiter are kept. */
  lemma OneCell(p: State, p': State, w: nat)
    requires Inv(p) && w in p.cells && p'.s == p.s && p'.teller == p.teller && p'.registered - {w} == p.registered - {w}
    requires w in p'.cells && p'.cells == p.cells[w := p'.cells[w]]
    requires CellOk(p'.cells[w]) && p'.cells[w].threads.Keys == p.cells[w].threads.Keys && TaskOk(p', w)
    ensures Inv(p')
  {
    hide CellOk, CalledFor, I.Inv, L.OwnTask, Asked, L.Inv;
    forall v | v in p'.cells ensures TaskOk(p', v) {
      assert TaskOk(p, v);
      assert v != w ==> (v in p'.registered <==> v in p'.registered - {w});
      assert v != w ==> (v in p.registered <==> v in p.registered - {w});
    }
  }

  lemma CellStepTask(p: State, w: nat, i: nat)
    requires Inv(p) && Enabled(p, CellStep(w, i))
    ensures w in Next(p, CellStep(w, i)).s.waiters && TaskOk(Next(p, CellStep(w, i)), w)
  {
    hide A.Next, A.Enabled, CellOk, CalledFor, I.Inv, L.OwnTask;
    var c := p.cells[w];
    assert TaskOk(p, w);
    CellKeys(c, A.Step(i));
    StepIssued(c, i);
    if L.OwnTask(c.threads[TASK]) == None { StepTells(c, i, TellerOf(p, w)); }
  }

  lemma CellStepInv(p: State, w: nat, i: nat)
    requires Inv(p) && Enabled(p, CellStep(w, i))
    ensures Inv(Next(p, CellStep(w, i)))
  {
    hide A.Next, A.Enabled, CellOk, I.Inv, TaskOk;
    CellKept(p.cells[w], A.Step(i));
    CellKeys(p.cells[w], A.Step(i));
    CellStepTask(p, w, i);
    OneCell(p, Next(p, CellStep(w, i)), w);
  }

  lemma CellKeys(c: A.State, a: A.Action)
    requires CellOk(c) && A.Enabled(c, a) && !a.Check?
    ensures A.Next(c, a).threads.Keys == c.threads.Keys && TASK in c.threads
  {
    hide A.Next;
    AwakeStays(c, a);
  }

  lemma AskOf(s: S.State, w: nat)
    requires I.Inv(s) && w in s.waiters && s.waiters[w].pc.LoadNodeState?
    ensures !Asked(s.waiters[w])
  {
    assert I.PollOk(s, w);
  }

  lemma RegisterIssues(c: A.State)
    requires A.Enabled(c, A.Register(TASK))
    ensures A.Next(c, A.Register(TASK)).issued > 0
  {
  }

  lemma RegisterTask(p: State, w: nat)
    requires Inv(p) && Enabled(p, Register(w))
    ensures w in Next(p, Register(w)).s.waiters && TaskOk(Next(p, Register(w)), w)
  {
    hide A.Next, A.Enabled, CellOk, CalledFor, I.Inv, L.OwnTask;
    AskOf(p.s, w);
    CellKeys(p.cells[w], A.Register(TASK));
    RegisterIssues(p.cells[w]);
  }

  lemma RegisterInv(p: State, w: nat)
    requires Inv(p) && Enabled(p, Register(w))
    ensures Inv(Next(p, Register(w)))
  {
    hide A.Next, A.Enabled, CellOk, I.Inv, TaskOk;
    CellKept(p.cells[w], A.Register(TASK));
    CellKeys(p.cells[w], A.Register(TASK));
    RegisterTask(p, w);
    OneCell(p, Next(p, Register(w)), w);
  }

  lemma FreeToNotify(c: A.State, i: nat)
    requires CellOk(c) && i in c.threads && c.threads[i] == A.Resting
    ensures A.Enabled(c, A.Notify(i))
  {
  }

  lemma NotifyStarts(c: A.State, i: nat)
    requires A.Enabled(c, A.Notify(i)) && i != TASK && TASK in c.threads
    ensures var c' := A.Next(c, A.Notify(i));
            && c'.issued == c.issued && TASK in c'.threads && c'.threads[TASK] == c.threads[TASK]
            && (c.issued > 0 ==> CalledFor(c', Some(i)))
  {
  }

  /** The releasing thread that has assigned a permit does go on to call `notify` on the node's task. */
  lemma AssigneeTold(p: State, b: S.Action, w: nat)
    requires Inv(p) && Enabled(p, Sem(b)) && Assignee(p.s, b) == Some(w)
    ensures w in p.cells && A.Enabled(p.cells[w], A.Notify(b.r + 1))
    ensures var p' := Next(p, Sem(b));
            p'.cells == p.cells[w := A.Next(p.cells[w], A.Notify(b.r + 1))] && TellerOf(p', w) == Some(b.r + 1)
  {
    hide I.Inv, CellOk, TaskOk, A.Next, A.Enabled, S.Next, S.Enabled;
    assert w in p.s.waiters;
    assert TellerFree(p, b.r);
    FreeToNotify(p.cells[w], b.r + 1);
  }

  lemma SemCell(p: State, b: S.Action, v: nat)
    requires Inv(p) && Enabled(p, Sem(b)) && v in p.cells
    ensures var p' := Next(p, Sem(b));
            && v in p'.cells && p'.cells.Keys == p.cells.Keys
            && CellOk(p'.cells[v]) && p'.cells[v].threads.Keys == p.cells[v].threads.Keys
            && p'.cells[v].issued == p.cells[v].issued
            && TASK in p.cells[v].threads && p'.cells[v].threads[TASK] == p.cells[v].threads[TASK]
            && (Assignee(p.s, b) == Some(v) && p.cells[v].issued > 0 ==> CalledFor(p'.cells[v], TellerOf(p', v)))
            && (Assignee(p.s, b) != Some(v) ==> p'.cells[v] == p.cells[v] && TellerOf(p', v) == TellerOf(p, v))
  {
    hide I.Inv, CellOk, TaskOk, CalledFor, A.Next, A.Enabled, S.Next, S.Enabled;
    HasTask(p, v);
    var x := Assignee(p.s, b);
    if x.Some? {
      AssigneeTold(p, b, x.value);
      if x == Some(v) {
        CellKept(p.cells[v], A.Notify(b.r + 1));
        CellKeys(p.cells[v], A.Notify(b.r + 1));
        NotifyStarts(p.cells[v], b.r + 1);
      }
    }
  }

  lemma HasTask(p: State, v: nat)
    requires Inv(p) && v in p.cells
    ensures TASK in p.cells[v].threads
  {
    hide I.Inv, TaskOk;
  }

  lemma SemTask(p: State, b: S.Action, v: nat)
    requires Inv(p) && Enabled(p, Sem(b)) && v in p.cells
    ensures var p' := Next(p, Sem(b));
            && v in p'.cells && v in p'.s.waiters && TASK in p'.cells[v].threads && TaskOk(p', v)
  {
    hide CellOk, I.Inv, S.Next, S.Enabled, CalledFor, A.Next, A.Enabled, L.OwnTask;
    SemCell(p, b, v);
    StepMoves(p.s, b, v);
    assert TaskOk(p, v);
    assert L.OwnTask(A.Resting) == None by { RestingOwns(); }
  }

  lemma RestingOwns()
    ensures L.OwnTask(A.Resting) == None
  {
  }

  lemma SemState(p: State, b: S.Action)
    requires Inv(p) && Enabled(p, Sem(b))
    ensures var p' := Next(p, Sem(b));
            && p'.s == S.Next(p.s, b)
            && p'.cells.Keys == p.cells.Keys == p'.s.waiters.Keys && p'.s.rel.Keys == p.s.rel.Keys
  {
    hide S.Next, S.Enabled, I.Inv, TaskOk, CellOk, A.Next, A.Enabled;
    forall v
      ensures (v in S.Next(p.s, b).waiters <==> v in p.s.waiters) && (v in S.Next(p.s, b).rel <==> v in p.s.rel)
    {
      KeysStay(p.s, b, v);
    }
    var x := Assignee(p.s, b);
    if x.Some? { AssigneeTold(p, b, x.value); }
  }

  lemma SemInv(p: State, b: S.Action)
    requires Inv(p) && Enabled(p, Sem(b))
    ensures Inv(Next(p, Sem(b)))
  {
    hide S.Next, S.Enabled, I.Inv, TaskOk, CellOk, Assignee, A.Next, A.Enabled, Next, Enabled;
    SemSafe(p, b);
    SemState(p, b);
    var p' := Next(p, Sem(b));
    forall v | v in p.cells
      ensures CellOk(p'.cells[v]) && TaskOk(p', v) && p'.cells[v].threads.Keys == p.cells[v].threads.Keys
    {
      SemTask(p, b, v);
      SemCell(p, b, v);
    }
  }

  lemma SemSafe(p: State, b: S.Action)
    requires Inv(p) && Enabled(p, Sem(b))
    ensures I.Inv(Next(p, Sem(b)).s)
  {
    hide I.Inv, TaskOk, CellOk, Assignee, A.Next, A.Enabled, S.Next, S.Enabled;
    T.StepInv(p.s, b);
  }

  lemma StepInv(p: State, a: Action)
    requires Inv(p) && Enabled(p, a)
    ensures Inv(Next(p, a))
  {
    hide Inv, Next;
    match a
    case Sem(b) => SemInv(p, b);
    case Register(w) => RegisterInv(p, w);
    case CellStep(w, i) => CellStepInv(p, w, i);
  }

  lemma {:induction false} RunInv(p: State, acts: seq<Action>)
    requires Inv(p)
    ensures Inv(Exec(p, acts))
    decreases |acts|
  {
    hide Inv, Next;
    if acts != [] {
      if Enabled(p, acts[0]) {
        StepInv(p, acts[0]);
        RunInv(Next(p, acts[0]), acts[1..]);
      } else {
        RunInv(p, acts[1..]);
      }
    }
  }

  // ----- the theorem -----

  /** No thread is inside `register` or `notify` of the task of waiter `w`. */
  predicate CellRests(p: State, w: nat)
    requires w in p.cells
  {
    forall i :: i in p.cells[w].threads ==> p.cells[w].threads[i] == A.Resting
  }

  lemma ToldOnce(c: A.State, teller: Option<nat>)
    requires CellOk(c) && CalledFor(c, teller) && forall i :: i in c.threads ==> c.threads[i] == A.Resting
    ensures c.notified[c.issued - 1] == 1
  {
    var t := c.issued - 1;
    LateIsNotified(c, t);
  }

  lemma LateIsNotified(c: A.State, t: A.Task)
    requires L.Inv(c) && t in c.late && t in c.home && c.home[t] != A.Replaced && c.home[t] != A.Dropped
    requires forall i :: i in c.threads ==> c.threads[i] == A.Resting
    ensures c.notified[t] == 1
  {
    L.LateReached(c, t);
    assert L.HomeOk(c, t);
  }

  /**
   * A waiter whose node has been assigned a permit, and whose task cell is at rest, has had the
   * task of its last poll notified, exactly once; this over every run of the semaphore and the
   * cells.  That notification may have come before the permit was assigned.
   */
  lemma AssignedWasNotified(permits: nat, ws: set<nat>, rs: set<nat>, acts: seq<Action>, w: nat)
    requires permits > 0 && w in Exec(Init(permits, ws, rs), acts).s.waiters
    ensures var p := Exec(Init(permits, ws, rs), acts);
            && w in p.cells
            && (p.s.waiters[w].state == S.Assigned && CellRests(p, w) ==>
                  p.cells[w].issued > 0 && TimesTold(p.cells[w]) == 1)
  {
    hide I.Inv, CellOk, Exec, Init, CalledFor;
    InitInv(permits, ws, rs);
    RunInv(Init(permits, ws, rs), acts);
    AssignedNotified(Exec(Init(permits, ws, rs), acts), w);
  }

  lemma AssignedNotified(p: State, w: nat)
    requires Inv(p) && w in p.s.waiters
    ensures w in p.cells
    ensures p.s.waiters[w].state == S.Assigned && CellRests(p, w) ==>
              p.cells[w].issued > 0 && TimesTold(p.cells[w]) == 1
  {
    hide I.Inv, CellOk, CalledFor;
    assert TaskOk(p, w);
    if p.s.waiters[w].state == S.Assigned && CellRests(p, w) {
      ToldOnce(p.cells[w], TellerOf(p, w));
      Issued(p.cells[w], TellerOf(p, w));
    }
  }

  lemma Issued(c: A.State, teller: Option<nat>)
    requires CalledFor(c, teller)
    ensures c.issued > 0
  {
  }
}
