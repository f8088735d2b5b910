/** `park_internal` and `unpark` as they are written, with the other threads' steps in between. */
module ParkerCode {
  import opened Wrappers
  import opened ParkerMachine
  import opened ParkerTheorems

  /** What threads other than the parking one do, and the wake-ups that come from nowhere. */
  predicate NotParking(acts: seq<Action>) {
    forall a :: a in acts ==> a.UnparkCall? || a.UnparkStep? || a.Wake?
  }

  /** What threads other than `u` do. */
  predicate NotUnparking(acts: seq<Action>, u: nat) {
    forall a :: a in acts ==> a != UnparkCall(u) && a != UnparkStep(u)
  }

  /** One call more has returned, with at most one token, and with exactly one if it was untimed. */
  predicate Returned(before: seq<(Timeout, nat)>, after: seq<(Timeout, nat)>, t: Timeout) {
    after == before + [(t, 1)] || (t != Forever && after == before + [(t, 0)])
  }

  lemma {:induction false} ExecSnoc(s: State, acts: seq<Action>, more: seq<Action>)
    ensures Exec(s, acts + more) == Exec(Exec(s, acts), more)
    decreases |acts|
  {
    hide Next, Enabled;
    if acts == [] {
      assert [] + more == more;
    } else {
      assert (acts + more)[1..] == acts[1..] + more;
      ExecSnoc(if Enabled(s, acts[0]) then Next(s, acts[0]) else s, acts[1..], more);
    }
  }

  lemma OtherStep(s: State, a: Action)
    requires Enabled(s, a) && (a.UnparkCall? || a.UnparkStep? || a.Wake?)
    ensures var s' := Next(s, a);
            && (s'.pc == s.pc || (s.pc.Asleep? && s'.pc == Woken(s.pc.t)))
            && s'.took == s.took && s'.finished == s.finished
  {
  }

  /** Others can only wake the parking thread. */
  lemma {:induction false} ParkingKept(s: State, acts: seq<Action>)
    requires NotParking(acts)
    ensures var s' := Exec(s, acts);
            && (s'.pc == s.pc || (s.pc.Asleep? && s'.pc == Woken(s.pc.t)))
            && s'.took == s.took && s'.finished == s.finished
    decreases |acts|
  {
    hide Next, Enabled;
    if acts != [] {
      assert acts[0] in acts;
      forall a | a in acts[1..] ensures a.UnparkCall? || a.UnparkStep? || a.Wake? { assert a in acts; }
      if Enabled(s, acts[0]) { OtherStep(s, acts[0]); }
      ParkingKept(if Enabled(s, acts[0]) then Next(s, acts[0]) else s, acts[1..]);
    }
  }

  lemma ElsewhereStep(s: State, a: Action, u: nat)
    requires Enabled(s, a) && a != UnparkCall(u) && a != UnparkStep(u) && u in s.unparkers
    ensures var s' := Next(s, a);
            u in s'.unparkers && s'.unparkers[u] == s.unparkers[u] && s'.swaps >= s.swaps
  {
  }

  /** Others leave an unparking thread where it is. */
  lemma {:induction false} UnparkingKept(s: State, acts: seq<Action>, u: nat)
    requires NotUnparking(acts, u) && u in s.unparkers
    ensures var s' := Exec(s, acts);
            u in s'.unparkers && s'.unparkers[u] == s.unparkers[u] && s'.swaps >= s.swaps
    decreases |acts|
  {
    hide Next, Enabled;
    if acts != [] {
      assert acts[0] in acts;
      forall a | a in acts[1..] ensures a != UnparkCall(u) && a != UnparkStep(u) { assert a in acts; }
      if Enabled(s, acts[0]) { ElsewhereStep(s, acts[0], u); }
      UnparkingKept(if Enabled(s, acts[0]) then Next(s, acts[0]) else s, acts[1..], u);
    }
  }

  lemma WakingSteps(s: State, u: nat)
    requires u in s.unparkers && s.unparkers[u] != Resting && s.unparkers[u] != Swap
    ensures var s' := UnparkNext(s, u);
            && u in s'.unparkers && s'.word == s.word && s'.swaps == s.swaps
            && match s.unparkers[u]
               case Relock => s'.unparkers[u] == Unlocking && s'.owner == Unparker(u)
               case Unlocking => s'.unparkers[u] == NotifyOne && s'.owner == Nobody
               case _ => s'.unparkers[u] == Resting && s'.owner == s.owner
  {
  }

  /** The words that the code may find where it looks. */
  lemma Expected(s: State)
    requires Inv(s)
    ensures !s.fault && s.word <= 2
    ensures s.pc.Flag? ==> s.word == EMPTY || s.word == NOTIFIED
    ensures s.pc.Consume? ==> s.word == NOTIFIED
    ensures s.pc.Recheck? ==> s.word == PARKED || s.word == NOTIFIED
    ensures HoldsLock(s.pc) <==> s.owner == Sleeper
    ensures s.pc != Outside && !s.pc.Take? ==> s.pc.t != Zero
    ensures forall u :: u in s.unparkers ==> (s.owner == Unparker(u) <==> s.unparkers[u] == Unlocking)
  {
  }

  class Parker {
    var state: nat
    var lock: Owner
    /** The parker with its callers, as the machine sees them. */
    var world: State
    ghost const threads: set<nat>
    ghost var trace: seq<Action>

    ghost predicate Valid()
      reads this
    {
      state == world.word && lock == world.owner && Inv(world) && world == Exec(Init(threads), trace)
    }

    constructor (us: set<nat>)
      ensures Valid() && threads == us && trace == [] && state == EMPTY
    {
      state, lock, world, threads, trace := EMPTY, Nobody, Init(us), us, [];
      new;
      InitInv(us);
    }

    /** One step of the thread whose code this is; its effect on the fields has already happened. */
    method Record(a: Action)
      requires Inv(world) && world == Exec(Init(threads), trace) && Enabled(world, a)
      requires state == Next(world, a).word && lock == Next(world, a).owner
      modifies `world, `trace
      ensures Valid() && world == Next(old(world), a) && trace == old(trace) + [a]
    {
      hide Next, Enabled, Inv, Init;
      StepInv(world, a);
      assert [a][0] == a && [a][1..] == [];
      ExecSnoc(Init(threads), trace, [a]);
      assert Exec(Next(world, a), []) == Next(world, a);
      assert Exec(world, [a]) == Next(world, a);
      world, trace := Next(world, a), trace + [a];
    }

    /** The other threads run for a while: the next part of the schedule. */
    method Others(env: seq<seq<Action>>) returns (rest: seq<seq<Action>>)
      requires Valid()
      modifies this
      ensures Valid() && rest == (if env == [] then [] else env[1..])
      ensures world == if env == [] then old(world) else Exec(old(world), env[0])
      ensures trace == if env == [] then old(trace) else old(trace) + env[0]
    {
      hide Next, Enabled, Inv, Init;
      if env == [] { return []; }
      RunInv(world, env[0]);
      ExecSnoc(Init(threads), trace, env[0]);
      world, trace := Exec(world, env[0]), trace + env[0];
      state, lock := world.word, world.owner;
      rest := env[1..];
    }

    /** `Others`, seen from inside `park_internal`. */
    method Meanwhile(env: seq<seq<Action>>) returns (rest: seq<seq<Action>>)
      requires Valid() && forall acts :: acts in env ==> NotParking(acts)
      modifies this
      ensures Valid() && old(trace) <= trace && rest == if env == [] then [] else env[1..]
      ensures world.pc == old(world.pc) || (env != [] && old(world.pc).Asleep? && world.pc == Woken(old(world.pc).t))
      ensures world.took == old(world.took) && world.finished == old(world.finished)
    {
      hide Inv, Exec, NotParking, UnparkNext;
      if env != [] { ParkingKept(world, env[0]); }
      rest := Others(env);
    }

    method CompareExchange(expected: nat, desired: nat) returns (ok: bool, seen: nat)
      modifies `state
      ensures seen == old(state) && ok == (seen == expected) && state == if ok then desired else seen
    {
      seen := state;
      ok := seen == expected;
      if ok { state := desired; }
    }

    method Swap(desired: nat) returns (seen: nat)
      modifies `state
      ensures seen == old(state) && state == desired
    {
      seen := state;
      state := desired;
    }

    /** Waits for the mutex; gives up only when the schedule ends first. */
    method Acquire(env: seq<seq<Action>>) returns (rest: seq<seq<Action>>, got: bool)
      requires Valid() && (world.pc.Lock? || world.pc.Woken?) && forall acts :: acts in env ==> NotParking(acts)
      modifies this
      ensures Valid() && old(trace) <= trace && |rest| <= |env| && forall acts :: acts in rest ==> NotParking(acts)
      ensures world.took == old(world.took) && world.finished == old(world.finished)
      ensures got ==> world.pc == if old(world.pc).Lock? then Flag(old(world.pc).t) else Recheck(old(world.pc).t)
      ensures !got ==> world.pc == old(world.pc) && lock.Unparker?
    {
      rest := env;
      while lock != Nobody && rest != []
        invariant Valid() && old(trace) <= trace && |rest| <= |env| && forall acts :: acts in rest ==> NotParking(acts)
        invariant world.pc == old(world.pc) && world.took == old(world.took) && world.finished == old(world.finished)
        decreases |rest|
      {
        rest := Meanwhile(rest);
      }
      got := lock == Nobody;
      if got {
        lock := Sleeper;
        Record(ParkStep);
      }
    }

    /** `cvar.wait`: gives the mutex up, sleeps until woken, takes the mutex again. */
    method CondvarWait(env: seq<seq<Action>>) returns (rest: seq<seq<Action>>, got: bool)
      requires Valid() && world.pc.Wait? && forall acts :: acts in env ==> NotParking(acts)
      modifies this
      ensures Valid() && old(trace) <= trace && forall acts :: acts in rest ==> NotParking(acts)
      ensures world.took == old(world.took) && world.finished == old(world.finished)
      ensures got ==> |rest| < |env| && world.pc == Recheck(old(world.pc).t)
      ensures !got ==> world.pc == Asleep(old(world.pc).t) || (world.pc == Woken(old(world.pc).t) && lock.Unparker?)
    {
      lock := Nobody;
      Record(ParkStep);
      rest := env;
      while world.pc.Asleep? && rest != []
        invariant Valid() && old(trace) <= trace && |rest| <= |env| && forall acts :: acts in rest ==> NotParking(acts)
        invariant world.pc == Asleep(old(world.pc).t) || (|rest| < |env| && world.pc == Woken(old(world.pc).t))
        invariant world.took == old(world.took) && world.finished == old(world.finished)
        decreases |rest|
      {
        rest := Meanwhile(rest);
      }
      if world.pc.Asleep? { return rest, false; }
      rest, got := Acquire(rest);
    }

    /** The mutex guard is dropped and the call returns. */
    method Leave(env: seq<seq<Action>>)
      requires Valid() && world.pc.Unlock? && forall acts :: acts in env ==> NotParking(acts)
      modifies this
      ensures Valid() && old(trace) <= trace && world.pc == Outside
      ensures world.finished == old(world.finished) + [(old(world.pc).t, old(world.took))]
    {
      var _ := Meanwhile(env);
      lock := Nobody;
      Record(ParkStep);
    }

    /**
     * `park_internal`.  It returns unless the schedule ends while it is blocked, and an untimed
     * call returns only with one token.
     */
    method ParkInternal(timeout: Timeout, env: seq<seq<Action>>) returns (done: bool)
      requires Valid() && world.pc == Outside && forall acts :: acts in env ==> NotParking(acts)
      modifies this
      ensures Valid() && old(trace) <= trace
      ensures done ==> world.pc == Outside && Returned(old(world.finished), world.finished, timeout)
      ensures !done ==> timeout != Zero && world.pc != Outside && (world.pc.Asleep? || lock.Unparker?)
    {
      hide Inv, Exec, NotParking, UnparkNext;
      Expected(world);
      Record(ParkCall(timeout));
      var e := Meanwhile(env);
      Expected(world);
      var ok, seen := CompareExchange(NOTIFIED, EMPTY);
      Record(ParkStep);
      if ok { return true; }
      if timeout == Zero { return true; }
      var got;
      e, got := Acquire(e);
      if !got { return false; }
      done := Block(timeout, e);
    }

    /** The call from the moment it holds the mutex. */
    method Block(timeout: Timeout, env: seq<seq<Action>>) returns (done: bool)
      requires Valid() && world.pc == Flag(timeout) && forall acts :: acts in env ==> NotParking(acts)
      requires timeout != Zero && world.took == 0
      modifies this
      ensures Valid() && old(trace) <= trace
      ensures done ==> world.pc == Outside && Returned(old(world.finished), world.finished, timeout)
      ensures !done ==> world.pc != Outside && (world.pc.Asleep? || lock.Unparker?)
    {
      hide Inv, Exec, NotParking, UnparkNext;
      var e := Meanwhile(env);
      Expected(world);
      var ok, seen := CompareExchange(EMPTY, PARKED);
      Record(ParkStep);
      if !ok {
        assert seen == NOTIFIED;
        e := Meanwhile(e);
        Expected(world);
        var was := Swap(EMPTY);
        assert was == NOTIFIED;
        Record(ParkStep);
        Leave(e);
        return true;
      }
      e := Meanwhile(e);
      if timeout == Forever {
        done := WaitForToken(e);
      } else {
        done := WaitOnce(e);
      }
    }

    /** The loop of an untimed park. */
    method WaitForToken(env: seq<seq<Action>>) returns (done: bool)
      requires Valid() && world.pc == Wait(Forever) && world.took == 0
      requires forall acts :: acts in env ==> NotParking(acts)
      modifies this
      ensures Valid() && old(trace) <= trace
      ensures done ==> world.pc == Outside && world.finished == old(world.finished) + [(Forever, 1)]
      ensures !done ==> world.finished == old(world.finished) && world.pc != Outside
      ensures !done ==> world.pc.Asleep? || lock.Unparker?
    {
      hide Inv, Exec, NotParking, UnparkNext;
      var e := env;
      while true
        invariant Valid() && old(trace) <= trace && world.pc == Wait(Forever)
        invariant world.finished == old(world.finished) && world.took == 0
        invariant forall acts :: acts in e ==> NotParking(acts)
        decreases |e|
      {
        var got;
        e, got := CondvarWait(e);
        if !got { return false; }
        e := Meanwhile(e);
        Expected(world);
        var ok, seen := CompareExchange(NOTIFIED, EMPTY);
        Record(ParkStep);
        if ok {
          Leave(e);
          return true;
        }
      }
    }

    /** The single wait of a timed park. */
    method WaitOnce(env: seq<seq<Action>>) returns (done: bool)
      requires Valid() && world.pc == Wait(Timed) && world.took == 0 && forall acts :: acts in env ==> NotParking(acts)
      modifies this
      ensures Valid() && old(trace) <= trace
      ensures done ==> world.pc == Outside && Returned(old(world.finished), world.finished, Timed)
      ensures !done ==> world.finished == old(world.finished) && world.pc != Outside
      ensures !done ==> world.pc.Asleep? || lock.Unparker?
    {
      hide Inv, Exec, NotParking, UnparkNext;
      var e, got := CondvarWait(env);
      if !got { return false; }
      e := Meanwhile(e);
      Expected(world);
      var was := Swap(EMPTY);
      assert was == NOTIFIED || was == PARKED;
      Record(ParkStep);
      Leave(e);
      return true;
    }

    /** `unpark`.  Once it has returned, its token has been made and no wake-up is owed by this thread. */
    method Unpark(u: nat, env: seq<seq<Action>>) returns (done: bool)
      requires Valid() && u in world.unparkers && world.unparkers[u] == Resting
      requires forall acts :: acts in env ==> NotUnparking(acts, u)
      modifies this
      ensures Valid() && old(trace) <= trace && u in world.unparkers
      ensures done ==> world.unparkers[u] == Resting && world.swaps > old(world.swaps)
      ensures !done ==> world.unparkers[u] == Relock && lock != Nobody
    {
      hide Inv, Exec, NotUnparking, ParkNext;
      Expected(world);
      Record(UnparkCall(u));
      var e := Elsewhere(env, u);
      Expected(world);
      var was := Swap(NOTIFIED);
      assert was == EMPTY || was == NOTIFIED || was == PARKED;
      Record(UnparkStep(u));
      if was != PARKED { return true; }
      done := WakeUp(u, e);
    }

    /** The end of `unpark`, once its swap has found the word at PARKED. */
    method WakeUp(u: nat, env: seq<seq<Action>>) returns (done: bool)
      requires Valid() && u in world.unparkers && world.unparkers[u] == Relock
      requires forall acts :: acts in env ==> NotUnparking(acts, u)
      modifies this
      ensures Valid() && old(trace) <= trace && u in world.unparkers && world.swaps >= old(world.swaps)
      ensures done ==> world.unparkers[u] == Resting
      ensures !done ==> world.unparkers[u] == Relock && lock != Nobody
    {
      hide Inv, Exec, NotUnparking, ParkNext, UnparkNext;
      var e := Elsewhere(env, u);
      while lock != Nobody && e != []
        invariant Valid() && old(trace) <= trace && u in world.unparkers && world.unparkers[u] == Relock
        invariant world.swaps >= old(world.swaps) && forall acts :: acts in e ==> NotUnparking(acts, u)
        decreases |e|
      {
        e := Elsewhere(e, u);
      }
      if lock != Nobody { return false; }
      PassLock(u, e);
      done := true;
    }

    /** Takes the free mutex, drops it, and notifies. */
    method PassLock(u: nat, env: seq<seq<Action>>)
      requires Valid() && u in world.unparkers && world.unparkers[u] == Relock && lock == Nobody
      requires forall acts :: acts in env ==> NotUnparking(acts, u)
      modifies this
      ensures Valid() && old(trace) <= trace && u in world.unparkers && world.swaps >= old(world.swaps)
      ensures world.unparkers[u] == Resting
    {
      hide Inv, Exec, NotUnparking, ParkNext, UnparkNext;
      var e := env;
      Expected(world);
      WakingSteps(world, u);
      lock := Unparker(u);
      Record(UnparkStep(u));
      e := Elsewhere(e, u);
      Expected(world);
      WakingSteps(world, u);
      lock := Nobody;
      Record(UnparkStep(u));
      e := Elsewhere(e, u);
      Expected(world);
      WakingSteps(world, u);
      Record(UnparkStep(u));
    }

    /** `Others`, seen from inside `unpark`. */
    method Elsewhere(env: seq<seq<Action>>, u: nat) returns (rest: seq<seq<Action>>)
      requires Valid() && u in world.unparkers && forall acts :: acts in env ==> NotUnparking(acts, u)
      modifies this
      ensures Valid() && old(trace) <= trace && rest == if env == [] then [] else env[1..]
      ensures u in world.unparkers && world.unparkers[u] == old(world.unparkers[u]) && world.swaps >= old(world.swaps)
    {
      hide Inv, Exec, NotUnparking;
      if env != [] { UnparkingKept(world, env[0], u); }
      rest := Others(env);
    }
  }
}
