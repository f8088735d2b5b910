/** Who is woken by `AtomicTask`: a register call that meets a notify tells its own task, and nobody is told unasked. */
module AtomicTaskWakeups {
  import opened Wrappers
  import opened AtomicTaskMachine
  import opened AtomicTaskTheorems

  /** Thread `i` is bound to notify the handle `t` of its register call, or has done so. */
  predicate BeingTold(s: State, i: nat, t: Task) {
    || t in s.notified
    || (i in s.threads
        && match s.threads[i]
           case RegStore(u) => u == t && s.word == REGISTERING + NOTIFYING
           case RegRelease(u) => u == t && s.word == REGISTERING + NOTIFYING
           case RegTake(u) => u == t
           case RegSwap(u) => u == t
           case Calling(u, own) => u == t && own
           case _ => false)
  }

  lemma OwnStepTells(s: State, i: nat, t: Task)
    requires LockInv(s) && Enabled(s, Step(i)) && BeingTold(s, i, t)
    ensures BeingTold(Next(s, Step(i)), i, t)
  {
    assert ThreadOk(s, i);
  }

  lemma LockHolds(s: State, i: nat)
    requires LockInv(s) && i in s.threads
    ensures ThreadOk(s, i) && (s.owner == None <==> s.word == WAITING) && (s.owner == Some(i) ==> OwnerOk(s, s.threads[i]))
  {
  }

  /** Nobody else can end the call or take the mark away that a notify has left for it. */
  lemma OtherStepKeeps(s: State, a: Action, i: nat, t: Task)
    requires LockInv(s) && Enabled(s, a) && BeingTold(s, i, t) && a != Step(i)
    ensures BeingTold(Next(s, a), i, t)
  {
    hide LockInv;
    if i in s.threads { LockHolds(s, i); }
    match a
    case Step(j) =>
      LockHolds(s, j);
      if Registering(s.threads[j]) { RegisterMoves(s, j); } else { NotifyMoves(s, j); }
    case _ =>
  }

  lemma {:induction false} StaysTold(s: State, acts: seq<Action>, i: nat, t: Task)
    requires Inv(s) && BeingTold(s, i, t)
    ensures BeingTold(Exec(s, acts), i, t)
    decreases |acts|
  {
    hide Next, Enabled, BeingTold, LockInv, HomeInv, LateInv;
    if acts != [] {
      if Enabled(s, acts[0]) {
        StepInv(s, acts[0]);
        if acts[0] == Step(i) { OwnStepTells(s, i, t); } else { OtherStepKeeps(s, acts[0], i, t); }
        StaysTold(Next(s, acts[0]), acts[1..], i, t);
      } else {
        StaysTold(s, acts[1..], i, t);
      }
    }
  }

  /** The `fetch_or` of a notify while thread `i` registers `t`, or the CAS of `i` while a notify has the cell. */
  predicate Meets(s: State, j: nat, i: nat, t: Task) {
    && i in s.threads && j in s.threads
    && (if j == i then s.threads[i] == RegCas(t) && s.word == NOTIFYING
        else s.threads[j] == FetchOr && (s.threads[i] == RegStore(t) || s.threads[i] == RegRelease(t)))
  }

  lemma MeetingTells(s: State, j: nat, i: nat, t: Task)
    requires LockInv(s) && Enabled(s, Step(j)) && Meets(s, j, i, t)
    ensures BeingTold(Next(s, Step(j)), i, t)
  {
    assert ThreadOk(s, i) && ThreadOk(s, j);
  }

  /** In every run, a register call that meets a notify has notified its own task by the time it returns. */
  lemma RegisterTellsItself(ts: set<nat>, cs: set<nat>, acts: seq<Action>, more: seq<Action>, j: nat, i: nat, t: Task)
    requires var s := Exec(Init(ts, cs), acts); Enabled(s, Step(j)) && Meets(s, j, i, t)
    ensures var s := Exec(Next(Exec(Init(ts, cs), acts), Step(j)), more);
            i in s.threads && s.threads[i] == Resting ==> s.notified[t] == 1
  {
    hide Next, Enabled, Meets, LockInv, HomeInv, LateInv;
    InitInv(ts, cs);
    RunInv(Init(ts, cs), acts);
    var s := Exec(Init(ts, cs), acts);
    MeetingTells(s, j, i, t);
    StepInv(s, Step(j));
    StaysTold(Next(s, Step(j)), more, i, t);
    RunInv(Next(s, Step(j)), more);
    OnceAtMost(Exec(Next(s, Step(j)), more), t);
  }

  lemma OnceAtMost(s: State, t: Task)
    requires Inv(s)
    ensures s.notified[t] <= 1
  {
    assert HomeOk(s, t);
  }

  // ----- and nobody else is -----

  /** No notify is under way, nor the consequences of one. */
  predicate Quiet(s: State) {
    && s.word / 2 % 2 == 0
    && forall i :: i in s.threads ==> s.threads[i] == Resting || s.threads[i].RegCas? || s.threads[i].RegStore?
                                      || s.threads[i].RegRelease?
  }

  lemma QuietStep(s: State, a: Action)
    requires Quiet(s) && Enabled(s, a) && !a.Notify?
    ensures Quiet(Next(s, a)) && Next(s, a).notified == s.notified
  {
  }

  /** From then on, until the next `notify`, no task is woken: registering, replacing and dropping wake nobody. */
  lemma {:induction false} NobodyToldUnasked(s: State, acts: seq<Action>)
    requires Quiet(s) && forall a :: a in acts ==> !a.Notify?
    ensures Quiet(Exec(s, acts)) && Exec(s, acts).notified == s.notified
    decreases |acts|
  {
    hide Next, Enabled, Quiet;
    if acts != [] {
      assert acts[0] in acts && forall a :: a in acts[1..] ==> a in acts;
      if Enabled(s, acts[0]) {
        QuietStep(s, acts[0]);
        NobodyToldUnasked(Next(s, acts[0]), acts[1..]);
      } else {
        NobodyToldUnasked(s, acts[1..]);
      }
    }
  }

  /** A handle is dropped only because another thread is registering at that moment. */
  lemma DroppedWhileRegistering(s: State, a: Action, t: Task)
    requires Inv(s) && Enabled(s, a) && Next(s, a).dropped[t] > s.dropped[t]
    ensures a.Step? && s.threads[a.i] == RegCas(t)
    ensures s.owner.Some? && s.owner.value != a.i && s.owner.value in s.threads && Registering(s.threads[s.owner.value])
  {
    assert a.Step?;
    assert ThreadOk(s, a.i);
    hide HomeInv, LateInv;
  }
}
