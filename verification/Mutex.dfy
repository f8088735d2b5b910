/**
 * The simulated mutex's own code: loops over the thread set, changing states in place, and the
 * fence that orders sections.
 */
module SimulatedMutex {
  import opened Wrappers
  import opened MutexMachine
  import opened MutexTheorems
  import Memory
  import SimulatedAtomics

  /** The thread set of an execution; `active` is the thread that runs. */
  class Threads {
    var threads: array<Thread>
    var active: nat

    ghost predicate Valid()
      reads this
    {
      active < threads.Length
    }

    /** `branch_acquire`, up to the call of the scheduler. */
    method BranchAcquire(objectId: nat, isLocked: bool)
      requires Valid()
      modifies threads
      ensures threads[..] == old(threads[..])[active := Acquirer(old(threads[active]), objectId, isLocked)]
    {
      if isLocked { threads[active] := threads[active].(state := Blocked); }
      threads[active] := threads[active].(operation := Some(objectId), stage := Acquiring(objectId));
    }

    /** `unpark_thread`. */
    method Unpark(t: nat)
      requires Valid() && t < threads.Length
      modifies threads
      ensures threads[..] == UnparkThread(old(threads[..]), active, t)
      ensures forall i :: 0 <= i < threads.Length && i != t ==> threads[i] == old(threads[i])
      ensures threads[t].operation == old(threads[t].operation) && threads[t].stage == old(threads[t].stage)
      ensures t != active && (old(threads[t].state) == Blocked || old(threads[t].state) == Yielded) ==>
                threads[t].state == Runnable
      ensures t == active || old(threads[t].state) == Runnable || old(threads[t].state) == Terminated ==>
                threads[t].state == old(threads[t].state)
    {
      if t == active { return; }
      if threads[t].state == Blocked || threads[t].state == Yielded {
        threads[t] := threads[t].(state := Runnable);
      }
    }
  }

  class Mutex {
    var lock: Option<nat>
    const objectId: nat

    constructor (id: nat)
      ensures lock == None && objectId == id
    {
      lock, objectId := None, id;
    }

    /** Is this the mutex `objectId` of the machine, with these threads? */
    ghost predicate Shows(ts: Threads, s: State)
      reads this, ts, ts.threads
    {
      && ts.Valid() && s.threads == ts.threads[..] && s.active == Some(ts.active)
      && objectId in s.locks && s.locks[objectId] == lock
    }

    /** The first half of `acquire`, up to the call of the scheduler. */
    method BeginAcquire(ts: Threads, ghost s: State, ghost next: Option<nat>)
      requires Shows(ts, s) && s.threads[ts.active].stage == Free
      modifies ts.threads
      ensures ts.threads[..] == AtBranch(s, Action.BeginAcquire(objectId, next))
    {
      ts.BranchAcquire(objectId, lock.Some?);
    }

    /** The second half of `acquire`, when the thread has been scheduled again. */
    method FinishAcquire(ts: Threads, ex: SimulatedAtomics.Execution, ghost s: State)
      requires Shows(ts, s) && Enabled(s, Action.FinishAcquire) && s.threads[ts.active].stage == Acquiring(objectId)
      requires ex.Valid() && ex.active == ts.active
      modifies this, ts.threads, ex`threads, ex`sc
      ensures ex.Valid() && ex.Value() == Memory.SeqCstPoint(old(ex.Value()), ts.active)
      ensures Shows(ts, Next(s, Action.FinishAcquire)) && lock == Some(ts.active)
      ensures Inv(s) ==> old(lock) == None
    {
      ghost var me := ts.active;
      if Inv(s) { assert ThreadOk(s, me); }
      ex.SeqCst();
      ts.threads[ts.active] := ts.threads[ts.active].(stage := Free);
      ghost var before := ts.threads[..];
      var th := 0;
      while th < ts.threads.Length
        modifies ts.threads
        invariant th <= ts.threads.Length && ts.active == me && ts.threads == old(ts.threads)
        invariant forall i :: 0 <= i < ts.threads.Length ==>
                    ts.threads[i] == if i < th then BlockOthers(before, me, objectId)[i] else before[i]
      {
        if th != ts.active && ts.threads[th].operation == Some(objectId) {
          ts.threads[th] := ts.threads[th].(state := Blocked);
        }
        th := th + 1;
      }
      assert ts.threads[..] == BlockOthers(before, me, objectId);
      lock := Some(ts.active);
    }

    /** `release`, by the guard's owner. */
    method Release(ts: Threads, ex: SimulatedAtomics.Execution, ghost s: State)
      requires Shows(ts, s) && Enabled(s, Action.Release(objectId))
      requires ex.Valid() && ex.active == ts.active
      modifies this, ts.threads, ex`threads, ex`sc
      ensures ex.Valid() && ex.Value() == Memory.SeqCstPoint(old(ex.Value()), ts.active)
      ensures Shows(ts, Next(s, Action.Release(objectId))) && lock == None
    {
      lock := None;
      ex.SeqCst();
      ghost var me := ts.active;
      var th := 0;
      while th < ts.threads.Length
        modifies ts.threads
        invariant th <= ts.threads.Length && ts.active == me && ts.threads == old(ts.threads) && lock == None
        invariant forall i :: 0 <= i < ts.threads.Length ==>
                    ts.threads[i] == if i < th then WakeOthers(s.threads, me, objectId)[i] else s.threads[i]
      {
        if th != ts.active && ts.threads[th].operation == Some(objectId) {
          ts.threads[th] := ts.threads[th].(state := Runnable);
        }
        th := th + 1;
      }
      assert ts.threads[..] == WakeOthers(s.threads, me, objectId);
    }
  }
}
