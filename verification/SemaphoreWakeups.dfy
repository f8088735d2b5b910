/**
 * Whether a task is woken for the permit that its waiter is assigned.  It is, if it registers
 * while no `notify` of its node still has to give the cell back.
 */
module SemaphoreWakeups {
  import opened Wrappers
  import opened SemaphoreTasks
  import S = SemaphoreMachine
  import I = SemaphoreInvariant
  import R = SemaphoreRuns
  import T = SemaphoreTheorems
  import A = AtomicTaskMachine
  import L = AtomicTaskTheorems

  /** Inside `notify`, with the `fetch_or` or the cell's release still to come. */
  predicate Engaged(pc: A.Pc) { pc.FetchOr? || pc.NotTake? || pc.NotRelease? }

  predicate CellEngaged(c: A.State) { exists i :: i in c.threads && Engaged(c.threads[i]) }

  // ----- who is where -----

  predicate TaskRests(c: A.State) {
    TASK in c.threads && (c.threads[TASK] == A.Resting || L.OwnTask(c.threads[TASK]).Some?)
  }

  predicate Busy(c: A.State, i: nat) { i in c.threads && c.threads[i] != A.Resting }

  /** Each thread is in one cell at a time. */
  ghost predicate OneCellEach(p: State) {
    forall v, w, i ::
      v in p.cells && w in p.cells && v != w && i != TASK && Busy(p.cells[v], i) ==> !Busy(p.cells[w], i)
  }

  /** A node is in the hands of `notify` only while the word names a tail. */
  predicate HandTail(s: S.State) { I.InHand(s).Some? ==> s.word.Tail? }

  ghost predicate Apart(p: State) {
    && (forall w :: w in p.cells ==> TaskRests(p.cells[w]))
    && (forall w, i: nat :: w in p.cells && i in p.cells[w].threads ==> i == TASK || i - 1 in p.s.rel)
    && OneCellEach(p) && HandTail(p.s)
  }

  lemma InitApart(permits: nat, ws: set<nat>, rs: set<nat>)
    requires permits > 0
    ensures Apart(Init(permits, ws, rs))
  {
  }

  lemma NotifyTaskRests(c: A.State, i: nat)
    requires CellOk(c) && A.Enabled(c, A.Step(i)) && !A.Registering(c.threads[i]) && TaskRests(c)
    ensures TaskRests(A.NotifyStep(c, i))
  {
    hide A.FetchOrNotifying, A.FetchAndNotNotifying, CellOk;
    match c.threads[i]
    case FetchOr =>
    case NotTake =>
    case NotRelease(_) =>
    case Calling(_, _) =>
  }

  lemma RegisterTaskRests(c: A.State, i: nat)
    requires CellOk(c) && A.Enabled(c, A.Step(i)) && A.Registering(c.threads[i]) && TaskRests(c)
    ensures TaskRests(A.RegisterStep(c, i)) && i == TASK
  {
    assert L.ThreadOk(c, i);
    L.RegisterMoves(c, i);
    match c.threads[i]
    case RegCas(_) =>
    case RegStore(_) =>
    case RegRelease(_) =>
    case RegTake(_) =>
    case RegSwap(_) =>
  }

  /** A step in a cell leaves every other thread where it is. */
  lemma CellMoves(c: A.State, i: nat)
    requires CellOk(c) && A.Enabled(c, A.Step(i)) && TaskRests(c)
    ensures var c' := A.Next(c, A.Step(i));
            && TaskRests(c') && c'.threads.Keys == c.threads.Keys
            && forall j :: j != i && j in c.threads ==> c'.threads[j] == c.threads[j]
  {
    if A.Registering(c.threads[i]) {
      RegisterTaskRests(c, i);
      L.RegisterMoves(c, i);
    } else {
      NotifyTaskRests(c, i);
      L.NotifyMoves(c, i);
    }
    hide A.RegisterStep, A.NotifyStep, CellOk;
  }

  /** Thread `i` moves in cell `w` and nothing else does; it was there before, or was nowhere. */
  lemma OneMoves(p: State, p': State, w: nat, i: nat)
    requires Apart(p) && p'.s.rel.Keys == p.s.rel.Keys && HandTail(p'.s)
    requires w in p.cells && w in p'.cells && p'.cells == p.cells[w := p'.cells[w]]
    requires TaskRests(p'.cells[w]) && p'.cells[w].threads.Keys == p.cells[w].threads.Keys
    requires forall j :: j in p.cells[w].threads && j != i ==> p'.cells[w].threads[j] == p.cells[w].threads[j]
    requires i == TASK || Busy(p.cells[w], i) || forall v :: v in p.cells ==> !Busy(p.cells[v], i)
    ensures Apart(p')
  {
    hide TaskRests, HandTail;
  }

  lemma StepBusy(c: A.State, i: nat)
    requires A.Enabled(c, A.Step(i))
    ensures Busy(c, i)
  {
  }

  lemma CellStepApart(p: State, w: nat, i: nat)
    requires Inv(p) && Apart(p) && Enabled(p, CellStep(w, i))
    ensures Apart(Next(p, CellStep(w, i)))
  {
    hide I.Inv, CellOk, TaskOk, A.Next, A.Enabled, HandTail, TaskRests, OneCellEach, Busy;
    StepBusy(p.cells[w], i);
    CellMoves(p.cells[w], i);
    OneMoves(p, Next(p, CellStep(w, i)), w, i);
  }

  lemma RegisterMoves(c: A.State)
    requires A.Enabled(c, A.Register(TASK))
    ensures var c' := A.Next(c, A.Register(TASK));
            c'.threads == c.threads[TASK := A.RegCas(c.issued)] && c'.threads.Keys == c.threads.Keys && TaskRests(c')
  {
  }

  lemma RegisterApart(p: State, w: nat)
    requires Inv(p) && Apart(p) && Enabled(p, Register(w))
    ensures Apart(Next(p, Register(w)))
  {
    hide I.Inv, CellOk, TaskOk, A.Next, A.Enabled, HandTail, TaskRests, OneCellEach, Busy;
    RegisterMoves(p.cells[w]);
    OneMoves(p, Next(p, Register(w)), w, TASK);
  }

  lemma NotifyMoves(c: A.State, i: nat)
    requires A.Enabled(c, A.Notify(i)) && i != TASK && TaskRests(c)
    ensures var c' := A.Next(c, A.Notify(i));
            c'.threads == c.threads[i := A.FetchOr] && c'.threads.Keys == c.threads.Keys && TaskRests(c')
  {
  }

  lemma SemQuiet(p: State, b: S.Action)
    requires Enabled(p, Sem(b)) && Assignee(p.s, b).None?
    ensures Next(p, Sem(b)).cells == p.cells
  {
    hide S.Next, S.Enabled, A.Next, A.Enabled;
  }

  lemma TellerOut(p: State, r: nat)
    requires Enabled(p, Sem(S.ReleaseStep(r)))
    ensures forall v :: v in p.cells ==> !Busy(p.cells[v], r + 1)
  {
    hide S.Enabled;
  }

  lemma RestsOf(p: State, w: nat)
    requires Apart(p) && w in p.cells
    ensures TaskRests(p.cells[w])
  {
    hide TaskRests, OneCellEach, HandTail;
  }

  lemma NotTheTask(r: nat)
    ensures r + 1 != TASK
  {
  }

  lemma AssignedApart(p: State, r: nat, w: nat)
    requires Inv(p) && Apart(p) && Enabled(p, Sem(S.ReleaseStep(r))) && Assignee(p.s, S.ReleaseStep(r)) == Some(w)
    ensures Apart(Next(p, Sem(S.ReleaseStep(r))))
  {
    hide *;
    var b := S.ReleaseStep(r);
    HandsStay(p, b);
    SemState(p, b);
    AssigneeTold(p, b, w);
    RestsOf(p, w);
    NotTheTask(r);
    NotifyMoves(p.cells[w], r + 1);
    TellerOut(p, r);
    OneMoves(p, Next(p, Sem(b)), w, r + 1);
  }

  lemma SemApart(p: State, b: S.Action)
    requires Inv(p) && Apart(p) && Enabled(p, Sem(b))
    ensures Apart(Next(p, Sem(b)))
  {
    hide Inv, Apart, Next, S.Next, S.Enabled, A.Next, A.Enabled, R.Hands;
    if Assignee(p.s, b).Some? {
      AssignedApart(p, b.r, Assignee(p.s, b).value);
    } else {
      HandsStay(p, b);
      SemState(p, b);
      SemQuiet(p, b);
      SameCells(p, Next(p, Sem(b)));
    }
  }

  lemma SameCells(p: State, p': State)
    requires Apart(p) && p'.s.rel.Keys == p.s.rel.Keys && HandTail(p'.s) && p'.cells == p.cells
    ensures Apart(p')
  {
    hide TaskRests, HandTail;
  }

  lemma HandsStay(p: State, b: S.Action)
    requires Inv(p) && Apart(p) && Enabled(p, Sem(b))
    ensures HandTail(Next(p, Sem(b)).s)
  {
    hide I.Inv, CellOk, TaskOk, HandTail, TaskRests, OneCellEach, S.Next, S.Enabled, A.Next, A.Enabled, Assignee;
    SemHands(p.s, b);
  }

  lemma SemHands(s: S.State, b: S.Action)
    requires I.Inv(s) && S.Enabled(s, b) && HandTail(s)
    ensures HandTail(S.Next(s, b))
  {
    match b
    case PollStep(w) => PollHandTail(s, w);
    case ReleaseStep(r) => ReleaseHandTail(s, r);
    case _ => hide I.Inv;
  }

  lemma PollHandTail(s: S.State, w: nat)
    requires I.Inv(s) && S.Enabled(s, S.PollStep(w)) && HandTail(s)
    ensures HandTail(S.PollNext(s, w))
  {
    hide I.Inv;
    match s.waiters[w].pc
    case PollCas(_, _, _) =>
    case LoadNodeState(_) =>
    case CasNodeState(_, _) =>
    case ClearNext(_) =>
    case LinkPrev(_, _) =>
    case Revert =>
  }

  /** What the holder knows, without the queue. */
  lemma HolderFacts(s: S.State, r: nat)
    requires I.Inv(s) && S.Enabled(s, S.ReleaseStep(r))
    ensures s.holder == Some(r) && (s.rel[r].pc.TakeHead? && s.rel[r].pc.h != S.Stub ==> s.word.Tail?)
    ensures forall q :: q in s.rel && s.rel[q].Busy? ==> q == r
  {
    hide I.Links, I.Placed, I.Polls, I.Counts, I.Orders;
  }

  lemma ReleaseHandTail(s: S.State, r: nat)
    requires I.Inv(s) && S.Enabled(s, S.ReleaseStep(r)) && HandTail(s)
    ensures HandTail(S.ReleaseNext(s, r))
  {
    hide I.Inv, S.NextOf;
    HolderFacts(s, r);
    match s.rel[r].pc
    case ReadHead =>
    case LoadNext(_) =>
    case LoadWord =>
    case AddPermits(_) =>
    case SkipStub(_) =>
    case LoadNext2(_) =>
    case TakeHead(_, _) =>
    case LoadTail(_) =>
    case ClearStub(_) =>
    case SwapTail(_) =>
    case LinkStub(_, _, _) =>
    case Recheck(_) =>
    case Notify(_, _) =>
    case FetchSub =>
  }

  lemma StepApart(p: State, a: Action)
    requires Inv(p) && Apart(p) && Enabled(p, a)
    ensures Apart(Next(p, a))
  {
    hide Inv, Apart, Next, Enabled;
    match a
    case Sem(b) => SemApart(p, b);
    case Register(w) => RegisterApart(p, w);
    case CellStep(w, i) => CellStepApart(p, w, i);
  }

  // ----- a registration with nothing in its way -----

  /** The task is inside `register` and will leave its handle in the cell. */
  predicate Entering(c: A.State) {
    && !CellEngaged(c) && TASK in c.threads
    && var pc := c.threads[TASK];
    (pc.RegCas? && c.word == A.WAITING) || ((pc.RegStore? || pc.RegRelease?) && c.word == A.REGISTERING)
  }

  /** The last handle is in the cell, for the next `notify` to take. */
  predicate Waiting(c: A.State) { !CellEngaged(c) && c.issued > 0 && c.cell == Some(c.issued - 1) }

  lemma FreeWord(c: A.State)
    requires CellOk(c) && TASK in c.threads && c.threads[TASK] == A.Resting && !CellEngaged(c)
    ensures c.word == A.WAITING
  {
  }

  lemma RegisterEnters(c: A.State)
    requires CellOk(c) && A.Enabled(c, A.Register(TASK)) && !CellEngaged(c)
    ensures Entering(A.Next(c, A.Register(TASK)))
  {
    FreeWord(c);
    hide CellOk;
  }

  /** A notifier that has given the cell back only calls the handle it took. */
  lemma OthersCall(c: A.State, i: nat)
    requires CellOk(c) && A.Enabled(c, A.Step(i)) && i != TASK && !CellEngaged(c)
    ensures var c' := A.Next(c, A.Step(i));
            && c'.word == c.word && c'.cell == c.cell && c'.issued == c.issued && !CellEngaged(c')
            && (TASK in c.threads ==> TASK in c'.threads && c'.threads[TASK] == c.threads[TASK])
  {
    assert L.ThreadOk(c, i);
    assert c.threads[i].Calling?;
    hide CellOk, A.RegisterStep;
  }

  lemma EnterSteps(c: A.State)
    requires CellOk(c) && A.Enabled(c, A.Step(TASK)) && Entering(c)
    ensures var c' := A.Next(c, A.Step(TASK));
            Entering(c') || (TASK in c'.threads && c'.threads[TASK] == A.Resting && Waiting(c'))
  {
    EnterFacts(c);
    hide CellOk, A.NotifyStep;
    match c.threads[TASK]
    case RegCas(_) =>
    case RegStore(_) =>
    case RegRelease(_) =>
  }

  lemma EnterFacts(c: A.State)
    requires CellOk(c) && Entering(c)
    ensures c.issued > 0 && c.threads[TASK].t == c.issued - 1
    ensures c.threads[TASK].RegRelease? ==> c.cell == Some(c.threads[TASK].t)
  {
    assert L.ThreadOk(c, TASK);
  }

  /** How a waiter's request stands, if every registration of its task was free. */
  predicate CleanCell(x: S.Waiter, c: A.State, registered: bool, told: nat) {
    && TASK in c.threads
    && (L.OwnTask(c.threads[TASK]).Some? ==> Entering(c))
    && (c.threads[TASK] == A.Resting && registered ==> Waiting(c))
    && (Asked(x) && x.state != S.Assigned ==> Waiting(c))
    && (x.state == S.Assigned ==> told == 0)
  }

  predicate Clean(p: State, w: nat)
    requires w in p.s.waiters && w in p.cells
  {
    CleanCell(p.s.waiters[w], p.cells[w], w in p.registered, TellOf(p, w))
  }

  /** How often the task had been notified when the permit was assigned. */
  function TellOf(p: State, w: nat): nat { if w in p.told then p.told[w] else 0 }

  /** The condition on registering, which the caller could check: no notifier has the cell still to give back. */
  predicate Fair(p: State, a: Action, w: nat)
    requires Enabled(p, a)
  {
    a == Register(w) ==> !CellEngaged(p.cells[w])
  }

  predicate FairRun(p: State, acts: seq<Action>, w: nat)
    decreases |acts|
  {
    acts == [] ||
    (if Enabled(p, acts[0]) then Fair(p, acts[0], w) && FairRun(Next(p, acts[0]), acts[1..], w)
     else FairRun(p, acts[1..], w))
  }

  /** A free registration makes a clean start, whatever came before. */
  lemma RegisterCleans(p: State, w: nat)
    requires Inv(p) && Enabled(p, Register(w)) && !CellEngaged(p.cells[w])
    ensures w in Next(p, Register(w)).s.waiters && Clean(Next(p, Register(w)), w)
  {
    hide I.Inv, CellOk, TaskOk, A.Next, A.Enabled, Entering, Waiting, CellEngaged;
    AskOf(p.s, w);
    RegisterEnters(p.cells[w]);
    RegisterMoves(p.cells[w]);
  }

  /** The task is inside `register` only before it asks. */
  lemma NotYetAsked(p: State, w: nat)
    requires Inv(p) && w in p.cells && TASK in p.cells[w].threads && L.OwnTask(p.cells[w].threads[TASK]).Some?
    ensures !Asked(p.s.waiters[w])
  {
    hide I.Inv, CellOk, Asked;
    assert TaskOk(p, w);
  }

  lemma OthersKeep(c: A.State, i: nat)
    requires CellOk(c) && TaskRests(c) && A.Enabled(c, A.Step(i)) && i != TASK
    ensures var c' := A.Next(c, A.Step(i));
            && TASK in c'.threads && c'.threads[TASK] == c.threads[TASK]
            && (Entering(c) ==> Entering(c')) && (Waiting(c) ==> Waiting(c'))
  {
    hide CellOk, A.Next, A.Enabled, CellEngaged;
    CellMoves(c, i);
    if !CellEngaged(c) { OthersCall(c, i); }
  }

  lemma TaskEnters(c: A.State)
    requires CellOk(c) && A.Enabled(c, A.Step(TASK)) && TaskRests(c)
    requires L.OwnTask(c.threads[TASK]).Some? ==> Entering(c)
    ensures var c' := A.Next(c, A.Step(TASK));
            && L.OwnTask(c.threads[TASK]).Some? && TASK in c'.threads
            && (L.OwnTask(c'.threads[TASK]).Some? ==> Entering(c'))
            && (c'.threads[TASK] == A.Resting ==> Waiting(c'))
  {
    hide CellOk, A.Next, CellEngaged;
    EnterSteps(c);
  }

  lemma CellNext(p: State, w: nat, i: nat)
    requires Enabled(p, CellStep(w, i))
    ensures w in p.cells && A.Enabled(p.cells[w], A.Step(i))
    ensures var q := Next(p, CellStep(w, i));
            && q.s == p.s && q.told == p.told && q.registered == p.registered
            && q.cells == p.cells[w := A.Next(p.cells[w], A.Step(i))]
  {
    hide A.Next, A.Enabled;
  }

  lemma StepCleanCell(x: S.Waiter, c: A.State, registered: bool, told: nat, i: nat)
    requires CellOk(c) && TaskRests(c) && A.Enabled(c, A.Step(i)) && CleanCell(x, c, registered, told)
    requires L.OwnTask(c.threads[TASK]).Some? ==> !Asked(x)
    ensures CleanCell(x, A.Next(c, A.Step(i)), registered, told)
  {
    hide A.Next, A.Enabled, Entering, Waiting, Asked, L.OwnTask, TaskRests, CellOk;
    if i == TASK { TaskEnters(c); } else { OthersKeep(c, i); }
  }

  /** What the cell and its task are before a step of the cell. */
  lemma CellFacts(p: State, w: nat)
    requires Inv(p) && Apart(p) && w in p.cells
    ensures CellOk(p.cells[w]) && TaskRests(p.cells[w]) && TASK in p.cells[w].threads
    ensures w in p.s.waiters && (L.OwnTask(p.cells[w].threads[TASK]).Some? ==> !Asked(p.s.waiters[w]))
  {
    hide Inv, Apart, Asked, L.OwnTask, TaskRests, CellOk;
    InvOf(p);
    RestsOf(p, w);
    StandingCell(p, w);
    RestsThere(p.cells[w]);
    if L.OwnTask(p.cells[w].threads[TASK]).Some? { NotYetAsked(p, w); }
  }

  lemma CellStepClean(p: State, w: nat, i: nat)
    requires w in p.s.waiters && w in p.cells && Clean(p, w) && Enabled(p, CellStep(w, i))
    requires CellOk(p.cells[w]) && TaskRests(p.cells[w]) && TASK in p.cells[w].threads
    requires L.OwnTask(p.cells[w].threads[TASK]).Some? ==> !Asked(p.s.waiters[w])
    ensures w in Next(p, CellStep(w, i)).cells && Clean(Next(p, CellStep(w, i)), w)
  {
    hide A.Next, A.Enabled, Asked, L.OwnTask, TaskRests, Next, Enabled, CellOk, CleanCell;
    CellNext(p, w, i);
    StepCleanCell(p.s.waiters[w], p.cells[w], w in p.registered, TellOf(p, w), i);
  }

  lemma RestsThere(c: A.State)
    requires TaskRests(c)
    ensures TASK in c.threads
  {
  }

  lemma AssignedAsks(x: S.Waiter)
    ensures x.state == S.Assigned ==> Asked(x)
  {
  }

  /** An assigned permit is taken by `acquire` alone, and then the request is over. */
  lemma AssignedStays(s: S.State, b: S.Action, v: nat)
    requires I.Inv(s) && S.Enabled(s, b) && v in s.waiters && s.waiters[v].state == S.Assigned
    ensures v in S.Next(s, b).waiters
    ensures Asked(S.Next(s, b).waiters[v]) ==> S.Next(s, b).waiters[v].state == S.Assigned
  {
    PollsOk(s, v);
    match b {
      case PollStep(w) => if w != v { PollOther(s, w, v); } else { hide I.Inv, S.PollNext; }
      case ReleaseStep(r) =>
        R.StateKept(s, r, v);
        PcsStay(s, r, v);
        NotInHand(s, r, v);
        hide I.Inv, S.ReleaseNext;
      case _ => hide I.Inv;
    }
  }

  lemma PollOther(s: S.State, w: nat, v: nat)
    requires S.Enabled(s, S.PollStep(w)) && v in s.waiters && v != w
    ensures v in S.PollNext(s, w).waiters && S.PollNext(s, w).waiters[v] == s.waiters[v]
  {
    match s.waiters[w].pc
    case PollCas(_, _, _) =>
    case LoadNodeState(_) =>
    case CasNodeState(_, _) =>
    case ClearNext(_) =>
    case LinkPrev(_, _) =>
    case Revert =>
  }

  /** A node in the hands of `notify` has not been assigned a permit. */
  lemma NotInHand(s: S.State, r: nat, v: nat)
    requires I.Inv(s) && S.Enabled(s, S.ReleaseStep(r)) && v in s.waiters && s.waiters[v].state == S.Assigned
    ensures !(s.rel[r].pc.Notify? && s.rel[r].pc.w == v)
  {
    PollsOk(s, v);
    assert s.holder == Some(r);
    hide I.Links, I.Placed, I.Polls, I.Counts, I.Orders, I.OneHolder;
  }

  /** What a step of the semaphore does to the request. */
  lemma SemRequests(p: State, b: S.Action, w: nat)
    requires Inv(p) && Enabled(p, Sem(b)) && w in p.cells
    ensures var p' := Next(p, Sem(b));
            && w in p'.s.waiters
            && var x, x' := p.s.waiters[w], p'.s.waiters[w];
            && (Asked(x') && x'.state != S.Assigned ==>
                  (Asked(x) && x.state != S.Assigned)
                  || (w in p.registered && TaskFree(p, w) && w !in p'.registered))
            && (x'.state == S.Assigned && x.state != S.Assigned ==> Assignee(p.s, b) == Some(w) && Asked(x))
            && (w in p'.registered ==> w in p.registered)
  {
    hide I.Inv, CellOk, TaskOk, A.Next, A.Enabled, S.Next, Asked, R.Hands;
    StepMoves(p.s, b, w);
    if p.s.waiters[w].state == S.Assigned { AssignedStays(p.s, b, w); }
    AssignedAsks(Next(p, Sem(b)).s.waiters[w]);
    AssignedAsks(p.s.waiters[w]);
  }

  lemma NotToldYet(c: A.State)
    requires CellOk(c) && Waiting(c)
    ensures TimesTold(c) == 0
  {
    assert L.HomeOk(c, c.issued - 1);
  }

  lemma AssigneeAssigned(s: S.State, b: S.Action, w: nat)
    requires I.Inv(s) && S.Enabled(s, b) && Assignee(s, b) == Some(w)
    ensures w in s.waiters && s.waiters[w].state == S.QueuedWaiting && w in S.Next(s, b).waiters
    ensures S.Next(s, b).waiters[w].state == S.Assigned
  {
    T.StepInv(s, b);
    R.StateKept(s, b.r, w);
    assert !S.Next(s, b).fault;
    hide I.Inv, S.ReleaseNext;
  }

  lemma ToldAt(p: State, b: S.Action, w: nat)
    requires Inv(p) && Enabled(p, Sem(b)) && w in p.cells
    ensures TellOf(Next(p, Sem(b)), w) == if Assignee(p.s, b) == Some(w) then TimesTold(p.cells[w]) else TellOf(p, w)
  {
    hide Inv, S.Next, S.Enabled, A.Next, R.Hands, A.Enabled;
    if Assignee(p.s, b).Some? { AssigneeTold(p, b, Assignee(p.s, b).value); }
  }

  /** While the request stands, the task is not inside `register` and has not registered again. */
  lemma RequestStands(p: State, w: nat)
    requires Inv(p) && w in p.s.waiters && w in p.cells && Asked(p.s.waiters[w])
    ensures TASK in p.cells[w].threads && L.OwnTask(p.cells[w].threads[TASK]) == None && w !in p.registered
  {
    hide I.Inv, CellOk, Asked, L.OwnTask;
    assert TaskOk(p, w);
    if w in p.registered { AskOf(p.s, w); }
  }

  lemma StandingCell(p: State, w: nat)
    requires Inv(p) && w in p.cells
    ensures CellOk(p.cells[w])
  {
    hide I.Inv, CellOk, TaskOk;
  }

  lemma AssignedClean(p: State, b: S.Action, w: nat)
    requires Inv(p) && Enabled(p, Sem(b)) && w in p.s.waiters
    requires w in p.cells && Clean(p, w) && Assignee(p.s, b) == Some(w)
    ensures w in Next(p, Sem(b)).s.waiters && w in Next(p, Sem(b)).cells && Clean(Next(p, Sem(b)), w)
  {
    hide Inv, CellOk, A.Next, A.Enabled, S.Next, S.Enabled, R.Hands;
    hide CalledFor, Waiting, Entering, Next, L.OwnTask, Assignee, Asked;
    SemSafe(p, b);
    InvOf(p);
    AssigneeAssigned(p.s, b, w);
    SemState(p, b);
    SemCell(p, b, w);
    SemRequests(p, b, w);
    RequestStands(p, w);
    ToldAt(p, b, w);
    StandingCell(p, w);
    NotToldYet(p.cells[w]);
  }

  lemma InvOf(p: State)
    requires Inv(p)
    ensures I.Inv(p.s) && p.cells.Keys == p.s.waiters.Keys
  {
    hide I.Inv, CellOk, TaskOk;
  }

  lemma SemClean(p: State, b: S.Action, w: nat)
    requires Inv(p) && Enabled(p, Sem(b)) && w in p.s.waiters && w in p.cells && Clean(p, w)
    ensures w in Next(p, Sem(b)).s.waiters && w in Next(p, Sem(b)).cells && Clean(Next(p, Sem(b)), w)
  {
    hide Inv, A.Next, A.Enabled, S.Next, S.Enabled, Waiting, Entering, Next, L.OwnTask, Assignee, Asked;
    if Assignee(p.s, b) == Some(w) {
      AssignedClean(p, b, w);
    } else {
      SemCell(p, b, w);
      SemRequests(p, b, w);
      ToldAt(p, b, w);
    }
  }

  /** What happens in another cell does not matter. */
  lemma ElsewhereClean(p: State, q: State, v: nat, w: nat)
    requires w in p.s.waiters && w in p.cells && Clean(p, w) && v != w && q.s == p.s && q.told == p.told
    requires v in q.cells && q.cells == p.cells[v := q.cells[v]] && (w in q.registered <==> w in p.registered)
    ensures w in q.cells && Clean(q, w)
  {
    hide CleanCell;
  }

  lemma StepClean(p: State, a: Action, w: nat)
    requires Inv(p) && Apart(p) && Enabled(p, a) && Fair(p, a, w) && w in p.s.waiters && w in p.cells && Clean(p, w)
    ensures w in Next(p, a).s.waiters && w in Next(p, a).cells && Clean(Next(p, a), w)
  {
    hide Inv, Apart, Clean, A.Next, A.Enabled, S.Next, S.Enabled, Assignee, CellOk, TaskRests, Asked, L.OwnTask;
    match a
    case Sem(b) => SemClean(p, b, w);
    case Register(v) => if v == w { RegisterCleans(p, w); } else { ElsewhereClean(p, Next(p, a), v, w); }
    case CellStep(v, i) =>
      CellFacts(p, w);
      if v == w { CellStepClean(p, w, i); } else { ElsewhereClean(p, Next(p, a), v, w); }
  }

  lemma {:induction false} RunClean(p: State, acts: seq<Action>, w: nat)
    requires Inv(p) && Apart(p) && w in p.s.waiters && w in p.cells && Clean(p, w) && FairRun(p, acts, w)
    ensures var q := Exec(p, acts); Inv(q) && Apart(q) && w in q.s.waiters && w in q.cells && Clean(q, w)
    decreases |acts|
  {
    hide Inv, Apart, Clean, Next, Fair;
    if acts != [] {
      if Enabled(p, acts[0]) {
        StepInv(p, acts[0]);
        StepApart(p, acts[0]);
        StepClean(p, acts[0], w);
        RunClean(Next(p, acts[0]), acts[1..], w);
      } else {
        RunClean(p, acts[1..], w);
      }
    }
  }

  lemma InitClean(permits: nat, ws: set<nat>, rs: set<nat>, w: nat)
    requires permits > 0 && w in ws
    ensures var p := Init(permits, ws, rs); w in p.s.waiters && w in p.cells && Clean(p, w)
  {
  }

  lemma {:induction false} KeysFixed(p: State, acts: seq<Action>)
    requires Inv(p)
    ensures Exec(p, acts).s.waiters.Keys == p.s.waiters.Keys && Exec(p, acts).s.rel.Keys == p.s.rel.Keys
    decreases |acts|
  {
    hide Inv, Next, Enabled;
    if acts != [] {
      if Enabled(p, acts[0]) {
        StepInv(p, acts[0]);
        StepKeys(p, acts[0]);
        KeysFixed(Next(p, acts[0]), acts[1..]);
      } else {
        KeysFixed(p, acts[1..]);
      }
    }
  }

  lemma StepKeys(p: State, a: Action)
    requires Inv(p) && Enabled(p, a)
    ensures Next(p, a).s.waiters.Keys == p.s.waiters.Keys && Next(p, a).s.rel.Keys == p.s.rel.Keys
  {
    hide I.Inv, CellOk, TaskOk, A.Next, A.Enabled, S.Next, S.Enabled;
    if a.Sem? { SemState(p, a.a); }
  }

  // ----- the theorem -----

  /** The task of the last poll has been notified since its waiter was assigned a permit. */
  predicate WokenSince(p: State, w: nat)
    requires w in p.cells
  {
    TimesTold(p.cells[w]) > TellOf(p, w)
  }

  /**
   * Over every run in which the task of `w` registers only while no notifier has its cell still to
   * give back: once the cell is at rest, an assigned permit has been followed by a notification of
   * the task of the last poll.
   */
  lemma AssignedIsWoken(permits: nat, ws: set<nat>, rs: set<nat>, acts: seq<Action>, w: nat)
    requires permits > 0 && w in ws && FairRun(Init(permits, ws, rs), acts, w)
    ensures var p := Exec(Init(permits, ws, rs), acts);
            && w in p.s.waiters && w in p.cells
            && (p.s.waiters[w].state == S.Assigned && CellRests(p, w) ==> WokenSince(p, w))
  {
    hide I.Inv, Apart, Exec, Init, CellOk, TaskOk;
    InitInv(permits, ws, rs);
    InitApart(permits, ws, rs);
    InitClean(permits, ws, rs, w);
    RunClean(Init(permits, ws, rs), acts, w);
    AssignedNotified(Exec(Init(permits, ws, rs), acts), w);
  }

  /**
   * In such a run, with no call in progress, a task that was told `NotReady` has been assigned a
   * permit and notified since, or waits in the queue while no permit is available or undelivered.
   */
  lemma WaitersWokenOrNoPermit(permits: nat, ws: set<nat>, rs: set<nat>, acts: seq<Action>, w: nat)
    requires permits > 0 && w in ws && FairRun(Init(permits, ws, rs), acts, w)
    ensures var p := Exec(Init(permits, ws, rs), acts);
            && w in p.s.waiters && w in p.cells
            && (T.Quiescent(p.s) && CellRests(p, w) && p.s.waiters[w].waiting ==>
                  || (p.s.waiters[w].state == S.Assigned && WokenSince(p, w))
                  || (p.s.waiters[w].state == S.QueuedWaiting && w in T.AbsOf(p.s).queue
                      && I.Available(p.s) == 0 && I.Undelivered(p.s) == 0))
  {
    hide Exec, Init, CellOk, TaskOk;
    AssignedIsWoken(permits, ws, rs, acts, w);
    InitInv(permits, ws, rs);
    RunInv(Init(permits, ws, rs), acts);
    var p := Exec(Init(permits, ws, rs), acts);
    if T.Quiescent(p.s) && p.s.waiters[w].waiting && p.s.waiters[w].state != S.Assigned {
      WaitingStates(p.s, w);
      T.NothingStranded(p.s, w);
    }
  }

  lemma WaitingStates(s: S.State, w: nat)
    requires I.Inv(s) && w in s.waiters && s.waiters[w].waiting
    ensures s.waiters[w].state == S.QueuedWaiting || s.waiters[w].state == S.Assigned
  {
    assert I.PollOk(s, w);
  }
}
