/** The simulated mutex excludes, exactly as long as nobody unparks a thread that waits for a held one. */
module MutexTheorems {
  import opened Wrappers
  import opened MutexMachine

  /** A waiting thread is blocked just while its mutex is held; a pending operation on a mutex is a waiting thread's. */
  predicate ThreadOk(s: State, t: nat)
    requires t < |s.threads|
  {
    var th := s.threads[t];
    && (th.operation.Some? ==> th.operation.value < s.objects)
    && (th.stage.Acquiring? ==>
          && th.operation == Some(th.stage.m) && th.stage.m in s.locks
          && th.state == if Locked(s, th.stage.m) then Blocked else Runnable)
    && (s.active != Some(t) && th.operation.Some? && th.operation.value in s.locks ==>
          th.stage == Acquiring(th.operation.value))
  }

  predicate Inv(s: State) {
    && !s.clash
    && (forall t :: 0 <= t < |s.threads| ==> ThreadOk(s, t))
    && (s.active.Some? ==> s.active.value < |s.threads| && s.threads[s.active.value].state == Runnable)
    && (forall m :: m in s.locks ==> m < s.objects)
  }

  lemma InitInv()
    ensures Inv(Init())
  {
  }

  /** The caller's side of the bargain, which it could check: no waiter for a held mutex is unparked. */
  predicate Fair(s: State, a: Action)
    requires Enabled(s, a)
  {
    a.Unpark? ==> !AwaitsHeld(s, a.t)
  }

  lemma StepInv(s: State, a: Action)
    requires Inv(s) && Enabled(s, a) && Fair(s, a)
    ensures Inv(Next(s, a))
  {
    var s' := Next(s, a);
    assert ThreadOk(s, s.active.value);
    match a {
      case Release(m) => assert s'.threads[s.active.value] == s.threads[s.active.value];
      case Unpark(t) => assert s'.threads[s.active.value] == s.threads[s.active.value];
      case _ =>
    }
    forall t | 0 <= t < |s'.threads| ensures ThreadOk(s', t) {
      if t < |s.threads| { assert ThreadOk(s, t); }
    }
  }

  /** Every unpark of the run is fair. */
  predicate FairRun(s: State, acts: seq<Action>)
    decreases |acts|
  {
    acts == [] ||
    (if Enabled(s, acts[0]) then Fair(s, acts[0]) && FairRun(Next(s, acts[0]), acts[1..])
     else FairRun(s, acts[1..]))
  }

  lemma {:induction false} RunInv(s: State, acts: seq<Action>)
    requires Inv(s) && FairRun(s, acts)
    ensures Inv(Exec(s, acts))
    decreases |acts|
  {
    hide Inv, Next, Fair;
    if acts != [] {
      if Enabled(s, acts[0]) {
        StepInv(s, acts[0]);
        RunInv(Next(s, acts[0]), acts[1..]);
      } else {
        RunInv(s, acts[1..]);
      }
    }
  }

  /**
   * In every schedule, an acquisition is carried out only while the mutex is free, and a waiter is
   * blocked only while it is not.
   */
  lemma Exclusion(acts: seq<Action>)
    requires FairRun(Init(), acts)
    ensures var s := Exec(Init(), acts);
            && !s.clash
            && (Enabled(s, FinishAcquire) ==> s.locks[s.threads[s.active.value].stage.m] == None)
            && forall t :: 0 <= t < |s.threads| && s.threads[t].stage.Acquiring? ==>
                 (s.threads[t].state == Blocked <==> AwaitsHeld(s, t))
  {
    InitInv();
    RunInv(Init(), acts);
    var s := Exec(Init(), acts);
    forall t | 0 <= t < |s.threads| && s.threads[t].stage.Acquiring?
      ensures s.threads[t].state == Blocked <==> AwaitsHeld(s, t)
    {
      assert ThreadOk(s, t);
    }
    if Enabled(s, FinishAcquire) { assert ThreadOk(s, s.active.value); }
  }

  /** Taking and giving back a mutex changes the state of no thread but those waiting for it. */
  lemma OnlyWaitersTouched(s: State, a: Action, t: nat)
    requires Inv(s) && Enabled(s, a) && (a.FinishAcquire? || a.Release?)
    requires t < |s.threads| && s.active != Some(t)
    ensures var m := if a.Release? then a.m else s.threads[s.active.value].stage.m;
            Next(s, a).threads[t] != s.threads[t] ==> s.threads[t].stage == Acquiring(m)
  {
    assert ThreadOk(s, t);
  }

  predicate NoUnpark(acts: seq<Action>) { forall a :: a in acts ==> !a.Unpark? }

  /** Some schedule without further unparks ends with a held mutex acquired again. */
  ghost predicate CanClash(s: State) {
    exists acts :: NoUnpark(acts) && Exec(s, acts).clash
  }

  lemma {:induction false} NoUnparkFair(s: State, acts: seq<Action>)
    requires NoUnpark(acts)
    ensures FairRun(s, acts)
    decreases |acts|
  {
    hide Enabled, Next;
    if acts != [] {
      assert acts[0] in acts;
      forall a | a in acts[1..] ensures !a.Unpark? { assert a in acts; }
      NoUnparkFair(if Enabled(s, acts[0]) then Next(s, acts[0]) else s, acts[1..]);
    }
  }

  /** An unpark endangers the mutex exactly if it hits a thread that waits for a held one. */
  lemma UnparkExact(s: State, t: nat)
    requires Inv(s) && Enabled(s, Unpark(t))
    ensures CanClash(Next(s, Unpark(t))) <==> AwaitsHeld(s, t)
  {
    var s' := Next(s, Unpark(t));
    if AwaitsHeld(s, t) {
      Ambush(s, t);
    } else {
      StepInv(s, Unpark(t));
      forall acts | NoUnpark(acts) ensures !Exec(s', acts).clash {
        NoUnparkFair(s', acts);
        RunInv(s', acts);
      }
    }
  }

  /** The thread that was unparked too early is scheduled at once. */
  lemma Ambush(s: State, t: nat)
    requires Inv(s) && Enabled(s, Unpark(t)) && AwaitsHeld(s, t)
    ensures CanClash(Next(s, Unpark(t)))
  {
    var s1 := Next(s, Unpark(t));
    assert ThreadOk(s, t) && ThreadOk(s, s.active.value);
    var yielding := Yield(Some(t));
    assert AtBranch(s1, yielding)[t].state == Runnable;
    assert Enabled(s1, yielding);
    var s2 := Next(s1, yielding);
    assert Enabled(s2, FinishAcquire);
    var acts := [yielding, FinishAcquire];
    assert acts[1..] == [FinishAcquire] && acts[1..][1..] == [];
    assert Exec(s1, acts) == Exec(s2, [FinishAcquire]) == Next(s2, FinishAcquire);
    assert NoUnpark(acts);
  }

  /** A mutex (object 0), another object (1), two threads: the second waits for the mutex that the first holds. */
  function Contended(): seq<Action> {
    [NewMutex, NewObject, Spawn, BeginAcquire(0, Some(0)), FinishAcquire, Branch(1, Some(1)), BeginAcquire(0, Some(0))]
  }

  function ContendedState(): State {
    State([Thread(Runnable, Some(1), Free), Thread(Blocked, Some(0), Acquiring(0))],
          Some(0), 2, map[0 := Some(0)], false)
  }

  lemma ContendedRun()
    ensures Exec(Init(), Contended()) == ContendedState()
  {
    var acts := Contended();
    var s1 := Next(Init(), acts[0]);
    var s2 := Next(s1, acts[1]);
    var s3 := Next(s2, acts[2]);
    assert s3.threads == [Thread(Runnable, None, Free), Thread(Runnable, None, Free)];
    var s4 := Next(s3, acts[3]);
    var s5 := Next(s4, acts[4]);
    assert s5.threads == [Thread(Runnable, Some(0), Free), Thread(Runnable, None, Free)];
    var s6 := Next(s5, acts[5]);
    assert s6.threads == [Thread(Runnable, Some(1), Free), Thread(Runnable, None, Free)];
    var s7 := Next(s6, acts[6]);
    assert s7 == ContendedState();
    OneStep(Init(), acts, 0);
    OneStep(s1, acts, 1);
    OneStep(s2, acts, 2);
    OneStep(s3, acts, 3);
    OneStep(s4, acts, 4);
    OneStep(s5, acts, 5);
    OneStep(s6, acts, 6);
    assert acts[0..] == acts && acts[7..] == [];
  }

  lemma OneStep(s: State, acts: seq<Action>, i: nat)
    requires i < |acts| && Enabled(s, acts[i])
    ensures Exec(s, acts[i..]) == Exec(Next(s, acts[i]), acts[i + 1..])
  {
    assert acts[i..][0] == acts[i] && acts[i..][1..] == acts[i + 1..];
  }

  lemma ContendedInv()
    ensures Inv(ContendedState()) && Enabled(ContendedState(), Unpark(1)) && AwaitsHeld(ContendedState(), 1)
  {
  }

  /** A run in which it happens: from there, the holder unparks the waiter, which then acquires the held mutex. */
  lemma UnparkBreaks()
    ensures Enabled(Exec(Init(), Contended()), Unpark(1))
    ensures CanClash(Next(Exec(Init(), Contended()), Unpark(1)))
  {
    ContendedRun();
    ContendedInv();
    hide Exec, Next, Enabled, Inv, ContendedState, Contended, Init, CanClash, AwaitsHeld;
    UnparkExact(ContendedState(), 1);
  }
}
