/** A run in which a task goes to sleep on a permit that it is not told of. */
module StrandingRun {
  import opened Wrappers
  import opened SemaphoreTasks
  import opened SemaphoreWakeups
  import opened SemaphoreStranding
  import S = SemaphoreMachine
  import A = AtomicTaskMachine

  const TAIL: S.Word := S.Tail(S.Stub)
  const NODE: S.Ref := S.Node(0)

  /**
   * The task takes the only permit and polls again: it registers and queues its node.  Thread 0
   * releases: it assigns the permit and is about to call `fetch_or` on the node's task.  The task
   * takes the permit and polls once more.
   */
  function Meeting(): seq<Action> { seq(26, k requires 0 <= k => ActAt(k)) }

  function ActAt(k: nat): Action {
    if k == 0 then Sem(S.PollCall(0, false))
    else if k == 2 || k == 25 then Sem(S.PollCall(0, true))
    else if k == 3 then Register(0)
    else if 4 <= k < 7 then CellStep(0, TASK)
    else if k < 12 then Sem(S.PollStep(0))
    else if k == 12 then Sem(S.ReleaseCall(0))
    else if k < 24 then Sem(S.ReleaseStep(0))
    else Sem(S.Acquire(0))
  }

  // ----- the state after each of its actions -----

  function PollAt(k: nat): S.Waiter {
    if k == 1 then S.Waiter(S.Idle, S.PollCas(S.Num(1), false, false), false, S.Away)
    else if k < 3 || k == 25 then S.Waiter(S.Idle, S.Out, false, S.Away)
    else if k < 8 || k == 26 then S.Waiter(S.Idle, S.LoadNodeState(TAIL), false, S.Away)
    else if k == 8 then S.Waiter(S.Idle, S.CasNodeState(TAIL, S.Idle), false, S.Away)
    else if k == 9 then S.Waiter(S.QueuedWaiting, S.ClearNext(TAIL), false, S.Pushing)
    else if k == 10 then S.Waiter(S.QueuedWaiting, S.PollCas(TAIL, true, true), false, S.Pushing)
    else if k == 11 then S.Waiter(S.QueuedWaiting, S.LinkPrev(S.Stub, 1), false, S.InQueue(1))
    else if k < 23 then S.Waiter(S.QueuedWaiting, S.Out, true, S.InQueue(1))
    else if k == 23 then S.Waiter(S.QueuedWaiting, S.Out, true, S.Popped)
    else S.Waiter(S.Assigned, S.Out, true, S.Away)
  }

  function HolderAt(k: nat): S.Rel {
    if k < 13 then S.NoCall
    else if k > 23 then S.Busy(1, 0, S.FetchSub)
    else
      S.Busy(1, 1, match k
                   case 13 => S.ReadHead
                   case 14 => S.LoadNext(S.Stub)
                   case 15 => S.SkipStub(NODE)
                   case 16 => S.LoadNext2(NODE)
                   case 17 => S.LoadTail(NODE)
                   case 18 => S.ClearStub(NODE)
                   case 19 => S.SwapTail(NODE)
                   case 20 => S.LinkStub(NODE, NODE, 2)
                   case 21 => S.Recheck(NODE)
                   case 22 => S.TakeHead(NODE, S.Stub)
                   case _ => S.Notify(0, S.QueuedWaiting))
  }

  function NextAt(k: nat): map<S.Ref, Option<S.Ref>> {
    if k < 10 then map[]
    else if k < 12 then map[NODE := None]
    else if k < 19 then map[NODE := None, S.Stub := Some(NODE)]
    else if k < 21 then map[NODE := None, S.Stub := None]
    else map[NODE := Some(S.Stub), S.Stub := None]
  }

  function SemAt(k: nat): S.State {
    S.State(
      if k < 2 then S.Num(1) else if 11 <= k < 20 then S.Tail(NODE) else TAIL,
      if 16 <= k < 23 then NODE else S.Stub,
      if k < 13 then 0 else 1,
      NextAt(k), map[0 := PollAt(k)], map[0 := HolderAt(k)],
      1, if k < 13 then 0 else 1, if k < 2 then 0 else if k < 25 then 1 else 2,
      if k < 11 then [S.Stub] else if k < 20 then [S.Stub, NODE] else [S.Stub, NODE, S.Stub],
      if k < 16 then 0 else if k < 23 then 1 else 2,
      if k < 16 then Some(0) else if k < 20 then None else Some(2),
      if k < 13 then None else Some(0),
      if k < 11 then [] else [0], if k < 23 then [] else [0], false)
  }

  function CellAt(k: nat): A.State {
    A.State(
      if 5 <= k < 7 then A.REGISTERING else A.WAITING,
      if k < 6 then None else Some(0),
      map[0 := if k == 4 then A.RegCas(0) else if k == 5 then A.RegStore(0)
               else if k == 6 then A.RegRelease(0) else A.Resting,
          1 := if k < 24 then A.Resting else A.FetchOr],
      {0}, if k < 4 then 0 else 1, if k < 24 then 0 else 1, 0, None,
      if 5 <= k < 7 then Some(0) else None,
      if k < 4 then map[] else if k < 6 then map[0 := A.Hand(0)] else map[0 := A.InCell],
      multiset{}, multiset{}, multiset{}, if k < 7 then {} else {0}, {}, if k < 24 then None else Some(1), false)
  }

  function After(k: nat): State {
    State(SemAt(k), map[0 := CellAt(k)], if 4 <= k < 8 then {0} else {}, if k < 24 then map[] else map[0 := 1],
          if k < 24 then map[] else map[0 := 0])
  }

  // ----- each action leads from one to the next -----

  lemma StartsAt()
    ensures Init(1, {0}, {0}) == After(0)
  {
    var p := Init(1, {0}, {0});
    assert p.s == SemAt(0);
    var c := p.cells[0];
    assert 0 + 1 in c.threads by { assert 0 in {0}; }
    assert forall i :: i in c.threads ==> i == TASK || i == 1;
    assert c.threads == CellAt(0).threads;
    assert c == CellAt(0);
    assert p.cells == After(0).cells;
  }

  lemma PollMoves(k: nat)
    requires k == 1 || 7 <= k < 12
    ensures S.Enabled(SemAt(k), S.PollStep(0)) && S.PollNext(SemAt(k), 0) == SemAt(k + 1)
  {
    match k
    case 1 =>
    case 7 =>
    case 8 =>
    case 9 =>
    case 10 =>
    case 11 =>
  }

  lemma CallMoves(k: nat)
    requires k == 0 || k == 2 || k == 12 || k == 24 || k == 25
    ensures ActAt(k).Sem? && S.Enabled(SemAt(k), ActAt(k).a) && S.Next(SemAt(k), ActAt(k).a) == SemAt(k + 1)
  {
    match k
    case 0 =>
    case 2 =>
    case 12 =>
    case 24 =>
    case 25 =>
  }

  /** The release up to the stub's return. */
  lemma HeadMoves(k: nat)
    requires 13 <= k < 17
    ensures S.Enabled(SemAt(k), S.ReleaseStep(0)) && S.ReleaseNext(SemAt(k), 0) == SemAt(k + 1)
  {
    match k
    case 13 =>
    case 14 =>
    case 15 =>
    case 16 =>
  }

  lemma TailMoves(k: nat)
    requires k == 17 || k == 18
    ensures S.Enabled(SemAt(k), S.ReleaseStep(0)) && S.ReleaseNext(SemAt(k), 0) == SemAt(k + 1)
  {
    match k
    case 17 =>
    case 18 =>
  }

  lemma StubMoves(k: nat)
    requires k == 19 || k == 20
    ensures S.Enabled(SemAt(k), S.ReleaseStep(0)) && S.ReleaseNext(SemAt(k), 0) == SemAt(k + 1)
  {
    match k
    case 19 =>
    case 20 =>
  }

  lemma HandMoves(k: nat)
    requires k == 21 || k == 22
    ensures S.Enabled(SemAt(k), S.ReleaseStep(0)) && S.ReleaseNext(SemAt(k), 0) == SemAt(k + 1)
  {
    match k
    case 21 =>
    case 22 =>
  }

  lemma AssignMoves()
    ensures S.Enabled(SemAt(23), S.ReleaseStep(0)) && S.ReleaseNext(SemAt(23), 0) == SemAt(24)
    ensures Assignee(SemAt(23), S.ReleaseStep(0)) == Some(0)
  {
  }

  lemma SemMoves(k: nat)
    requires k < 3 || 7 <= k < 26
    ensures ActAt(k).Sem? && S.Enabled(SemAt(k), ActAt(k).a) && S.Next(SemAt(k), ActAt(k).a) == SemAt(k + 1)
  {
    hide SemAt, S.PollNext, S.ReleaseNext, S.Enabled;
    if k == 0 || k == 2 || k == 12 || k >= 24 { CallMoves(k); }
    else if k < 12 { PollMoves(k); }
    else if k < 17 { HeadMoves(k); }
    else if k < 19 { TailMoves(k); }
    else if k < 21 { StubMoves(k); }
    else if k < 23 { HandMoves(k); }
    else { AssignMoves(); }
  }

  /** The steps of the task's `register`. */
  lemma CellMoves(k: nat)
    requires 3 <= k < 7
    ensures var a := if k == 3 then A.Register(TASK) else A.Step(TASK);
            A.Enabled(CellAt(k), a) && A.Next(CellAt(k), a) == CellAt(k + 1)
  {
    match k
    case 3 =>
    case 4 =>
    case 5 =>
    case 6 =>
  }

  lemma TaskSteps(k: nat)
    requires 3 <= k < 7
    ensures Enabled(After(k), ActAt(k)) && Next(After(k), ActAt(k)) == After(k + 1)
  {
    hide A.Next, A.Enabled;
    CellMoves(k);
    assert SemAt(k) == SemAt(k + 1);
    assert map[0 := CellAt(k)][0 := CellAt(k + 1)] == map[0 := CellAt(k + 1)];
  }

  /** No step but the last of the release assigns a permit. */
  lemma NobodyYet(k: nat)
    requires (k < 3 || 7 <= k < 26) && k != 23 && ActAt(k).Sem? && S.Enabled(SemAt(k), ActAt(k).a)
    ensures Assignee(SemAt(k), ActAt(k).a) == None && CellAt(k) == CellAt(k + 1)
  {
    hide S.Enabled;
  }

  /** The gates that the tasks and threads have to pass are open: nobody is inside `register` or `notify`. */
  lemma GatesOpen(k: nat)
    requires (k < 3 || 7 <= k < 26) && k != 23
    ensures TaskFree(After(k), 0) && (12 <= k < 24 ==> TellerFree(After(k), 0))
    ensures ActAt(k) == Sem(S.PollStep(0)) && PollAt(k).pc.LoadNodeState? ==> 0 in After(k).registered
  {
    hide SemAt;
  }

  lemma SemSteps(k: nat)
    requires (k < 3 || 7 <= k < 26) && k != 23
    ensures Enabled(After(k), ActAt(k)) && Next(After(k), ActAt(k)) == After(k + 1)
  {
    hide S.Next, S.Enabled, A.Next, A.Enabled, Assignee, CellAt, TaskFree, TellerFree;
    SemMoves(k);
    NobodyYet(k);
    GatesOpen(k);
  }

  lemma CellCalled()
    ensures A.Enabled(CellAt(23), A.Notify(1))
    ensures A.Next(CellAt(23), A.Notify(1)) == CellAt(24) && TimesTold(CellAt(23)) == 0
    ensures forall i :: i in CellAt(23).threads ==> CellAt(23).threads[i] == A.Resting
    ensures 1 in CellAt(23).threads
  {
  }

  lemma Assigns()
    ensures Enabled(After(23), ActAt(23)) && Next(After(23), ActAt(23)) == After(24)
  {
    hide S.Next, S.Enabled, A.Next, A.Enabled, SemAt, CellAt, Assignee, TimesTold;
    SemMoves(23);
    AssignMoves();
    CellCalled();
    assert map[0 := CellAt(23)][0 := CellAt(24)] == map[0 := CellAt(24)];
  }

  lemma StepAt(k: nat)
    requires k < 26
    ensures Enabled(After(k), Meeting()[k]) && Next(After(k), Meeting()[k]) == After(k + 1)
  {
    hide After, ActAt, Next, Enabled;
    if 3 <= k < 7 { TaskSteps(k); }
    else if k == 23 { Assigns(); }
    else { SemSteps(k); }
  }

  lemma OneStep(p: State, acts: seq<Action>, i: nat)
    requires i < |acts| && Enabled(p, acts[i])
    ensures Exec(p, acts[i..]) == Exec(Next(p, acts[i]), acts[i + 1..])
  {
    hide Next, Enabled;
    assert acts[i..][0] == acts[i] && acts[i..][1..] == acts[i + 1..];
  }

  lemma {:induction false} MeetingRuns(k: nat)
    requires k <= 26
    ensures Exec(After(k), Meeting()[k..]) == After(26)
    decreases 26 - k
  {
    hide After, Exec, Next, Enabled, ActAt;
    if k == 26 {
      assert Meeting()[26..] == [];
      NothingLeft(After(26));
    } else {
      StepAt(k);
      OneStep(After(k), Meeting(), k);
      MeetingRuns(k + 1);
    }
  }

  lemma NothingLeft(p: State)
    ensures Exec(p, []) == p
  {
  }

  /** Then the task may register, the notifier is in the way, and there is no permit. */
  lemma Meets()
    ensures Enabled(After(26), Register(0)) && CellEngaged(After(26).cells[0]) && After(26).s.word.Tail?
  {
    assert 1 in CellAt(26).threads && Engaged(CellAt(26).threads[1]);
  }

  /**
   * The run, and that it can go on to a state in which the task sleeps, its node has been assigned
   * a permit, and no call is left that would tell it.
   */
  lemma MeetingStrands()
    ensures Enabled(Exec(Init(1, {0}, {0}), Meeting()), Register(0))
    ensures CanStrand(Next(Exec(Init(1, {0}, {0}), Meeting()), Register(0)), 0)
  {
    hide *;
    StartsAt();
    MeetingRuns(0);
    MeetingWhole();
    Meets();
    InitInv(1, {0}, {0});
    InitApart(1, {0}, {0});
    RunGood(Init(1, {0}, {0}), Meeting());
    RegistrationExact(After(26), 0);
  }

  lemma MeetingWhole()
    ensures Meeting()[0..] == Meeting()
  {
  }
}
