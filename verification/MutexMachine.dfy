/**
 * The simulated mutex under the scheduler of the checker: one thread is active at a time, and
 * every branch point hands control to some runnable thread.
 */
module MutexMachine {
  import opened Wrappers

  datatype RunState = Runnable | Blocked | Yielded | Terminated

  /** `Acquiring(m)`: the thread has set up its acquisition of mutex `m` and has yet to carry it out. */
  datatype Stage = Free | Acquiring(m: nat)

  /** `operation` is the object of the last branch point, forgotten by parking, yielding and ending. */
  datatype Thread = Thread(state: RunState, operation: Option<nat>, stage: Stage)

  /** Objects are numbered; those in `locks` are mutexes.  `clash` records an acquisition of a held mutex. */
  datatype State =
    State(threads: seq<Thread>, active: Option<nat>, objects: nat, locks: map<nat, Option<nat>>, clash: bool)

  /** What the active thread does; `next` is the thread that the scheduler then picks. */
  datatype Action =
    | NewMutex
    | NewObject
    | Spawn
    | Unpark(t: nat)
    | Branch(o: nat, next: Option<nat>)
    | Park(next: Option<nat>)
    | Yield(next: Option<nat>)
    | Finish(next: Option<nat>)
    | BeginAcquire(m: nat, next: Option<nat>)
    | FinishAcquire
    | Release(m: nat)

  // ----- what the operations do to the threads -----

  /** `acquire`: every other thread whose operation is on the mutex is blocked. */
  function BlockOthers(ts: seq<Thread>, me: nat, m: nat): (us: seq<Thread>)
    ensures |us| == |ts|
  {
    seq(|ts|, i requires 0 <= i < |ts| =>
      if i != me && ts[i].operation == Some(m) then ts[i].(state := Blocked) else ts[i])
  }

  /** `release`: every other thread whose operation is on the mutex can run. */
  function WakeOthers(ts: seq<Thread>, me: nat, m: nat): (us: seq<Thread>)
    ensures |us| == |ts|
  {
    seq(|ts|, i requires 0 <= i < |ts| =>
      if i != me && ts[i].operation == Some(m) then ts[i].(state := Runnable) else ts[i])
  }

  /** `unpark_thread`, which does not ask why the thread is blocked. */
  function UnparkThread(ts: seq<Thread>, me: nat, t: nat): (us: seq<Thread>)
    requires t < |ts|
    ensures |us| == |ts|
  {
    if t != me && (ts[t].state == Blocked || ts[t].state == Yielded) then ts[t := ts[t].(state := Runnable)] else ts
  }

  /** `branch_acquire`: a thread that finds the mutex held is blocked. */
  function Acquirer(th: Thread, m: nat, held: bool): Thread {
    Thread(if held then Blocked else th.state, Some(m), Acquiring(m))
  }

  /** The scheduler's choice: a runnable thread, or nobody if there is none. */
  predicate Pick(ts: seq<Thread>, next: Option<nat>) {
    match next
    case Some(t) => t < |ts| && ts[t].state == Runnable
    case None => forall t :: 0 <= t < |ts| ==> ts[t].state != Runnable
  }

  predicate Locked(s: State, m: nat) { m in s.locks && s.locks[m].Some? }

  /** Is thread `t` waiting for a mutex that is held? */
  predicate AwaitsHeld(s: State, t: nat)
    requires t < |s.threads|
  {
    s.threads[t].stage.Acquiring? && Locked(s, s.threads[t].stage.m)
  }

  // ----- the machine -----

  /** The threads as they stand when a branching action reaches the scheduler. */
  function AtBranch(s: State, a: Action): seq<Thread>
    requires s.active.Some? && s.active.value < |s.threads|
  {
    var me := s.active.value;
    var th := s.threads[me];
    match a
    case Branch(o, _) => s.threads[me := th.(operation := Some(o))]
    case Park(_) => s.threads[me := th.(state := Blocked, operation := None)]
    case Yield(_) => s.threads[me := th.(state := Yielded, operation := None)]
    case Finish(_) => s.threads[me := th.(state := Terminated, operation := None)]
    case BeginAcquire(m, _) => s.threads[me := Acquirer(th, m, Locked(s, m))]
    case _ => s.threads
  }

  /** A guard is released by the thread that got it; anything else only from a thread's own code. */
  predicate Enabled(s: State, a: Action) {
    && s.active.Some? && s.active.value < |s.threads|
    && (a.FinishAcquire? <==> s.threads[s.active.value].stage.Acquiring?)
    && match a
       case Unpark(t) => t < |s.threads|
       case Branch(o, next) => o < s.objects && o !in s.locks && Pick(AtBranch(s, a), next)
       case Park(next) => Pick(AtBranch(s, a), next)
       case Yield(next) => Pick(AtBranch(s, a), next)
       case Finish(next) => Pick(AtBranch(s, a), next)
       case BeginAcquire(m, next) => m in s.locks && Pick(AtBranch(s, a), next)
       case FinishAcquire => s.threads[s.active.value].stage.m in s.locks
       case Release(m) => m in s.locks && s.locks[m] == s.active
       case _ => true
  }

  function Next(s: State, a: Action): State
    requires Enabled(s, a)
  {
    var me := s.active.value;
    match a
    case NewMutex => s.(objects := s.objects + 1, locks := s.locks[s.objects := None])
    case NewObject => s.(objects := s.objects + 1)
    case Spawn => s.(threads := s.threads + [Thread(Runnable, None, Free)])
    case Unpark(t) => s.(threads := UnparkThread(s.threads, me, t))
    case Branch(_, next) => s.(threads := AtBranch(s, a), active := next)
    case Park(next) => s.(threads := AtBranch(s, a), active := next)
    case Yield(next) => s.(threads := AtBranch(s, a), active := next)
    case Finish(next) => s.(threads := AtBranch(s, a), active := next)
    case BeginAcquire(_, next) => s.(threads := AtBranch(s, a), active := next)
    case FinishAcquire =>
      var m := s.threads[me].stage.m;
      s.(threads := BlockOthers(s.threads[me := s.threads[me].(stage := Free)], me, m),
         locks := s.locks[m := Some(me)], clash := s.clash || s.locks[m].Some?)
    case Release(m) => s.(threads := WakeOthers(s.threads, me, m), locks := s.locks[m := None])
  }

  /** A new execution: the root thread alone. */
  function Init(): State { State([Thread(Runnable, None, Free)], Some(0), 0, map[], false) }

  /** The run of a list of actions; those not enabled when their turn comes do nothing. */
  function Exec(s: State, acts: seq<Action>): State
    decreases |acts|
  {
    if acts == [] then s
    else Exec(if Enabled(s, acts[0]) then Next(s, acts[0]) else s, acts[1..])
  }
}
