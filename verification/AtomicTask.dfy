/** `register_task` and `notify` as they are written, with the other threads' steps in between. */
module AtomicTaskCode {
  import opened Wrappers
  import opened AtomicTaskMachine
  import opened AtomicTaskTheorems

  /** What threads other than `i` do. */
  predicate NotBy(acts: seq<Action>, i: nat) {
    forall a :: a in acts ==> a != Register(i) && a != Notify(i) && a != Step(i)
  }

  /** The histories grow, and nobody moves another thread. */
  predicate Grown(s: State, s': State, i: nat) {
    && s.completed <= s'.completed && s.late <= s'.late && s'.consumers == s.consumers
    && (i in s.threads ==> i in s'.threads && s'.threads[i] == s.threads[i])
  }

  lemma OtherRegisters(s: State, j: nat, i: nat)
    requires Enabled(s, Step(j)) && Registering(s.threads[j]) && i != j
    ensures Grown(s, RegisterStep(s, j), i)
  {
    match s.threads[j]
    case RegCas(_) =>
    case RegStore(_) =>
    case RegRelease(_) =>
    case RegTake(_) =>
    case RegSwap(_) =>
  }

  lemma OtherNotifies(s: State, j: nat, i: nat)
    requires Enabled(s, Step(j)) && !Registering(s.threads[j]) && i != j
    ensures Grown(s, NotifyStep(s, j), i)
  {
    hide FetchOrNotifying, FetchAndNotNotifying;
    match s.threads[j]
    case FetchOr =>
    case NotTake =>
    case NotRelease(_) =>
    case Calling(_, _) =>
  }

  lemma OtherStep(s: State, a: Action, i: nat)
    requires Enabled(s, a) && a != Register(i) && a != Notify(i) && a != Step(i)
    ensures Grown(s, Next(s, a), i)
  {
    hide RegisterStep, NotifyStep;
    match a
    case Step(j) => if Registering(s.threads[j]) { OtherRegisters(s, j, i); } else { OtherNotifies(s, j, i); }
    case _ =>
  }

  lemma {:induction false} OthersGrow(s: State, acts: seq<Action>, i: nat)
    requires Inv(s) && NotBy(acts, i)
    ensures Grown(s, Exec(s, acts), i)
    decreases |acts|
  {
    hide Next, Enabled, Inv;
    if acts != [] {
      assert acts[0] in acts;
      forall a | a in acts[1..] ensures a != Register(i) && a != Notify(i) && a != Step(i) { assert a in acts; }
      if Enabled(s, acts[0]) {
        OtherStep(s, acts[0], i);
        StepInv(s, acts[0]);
      }
      OthersGrow(if Enabled(s, acts[0]) then Next(s, acts[0]) else s, acts[1..], i);
    }
  }

  /** What the code may find where it looks. */
  lemma Expected(s: State, i: nat)
    requires Inv(s) && i in s.threads
    ensures !s.fault && s.word <= 3
    ensures s.threads[i].RegRelease? ==> s.word == REGISTERING || s.word == REGISTERING + NOTIFYING
    ensures s.threads[i].RegTake? ==> s.cell == Some(s.threads[i].t)
    ensures OwnTask(s.threads[i]).Some? ==> OwnTask(s.threads[i]).value !in s.completed
  {
    assert ThreadOk(s, i) && OwnOk(s, i);
  }

  class AtomicTask {
    var state: nat
    var task: Option<Task>
    /** The cell with its callers, as the machine sees them. */
    var world: State
    ghost const threads: set<nat>
    ghost const consumers: set<nat>
    ghost var trace: seq<Action>

    ghost predicate Valid()
      reads this
    {
      && state == world.word && task == world.cell && Inv(world)
      && world == Exec(Init(threads, consumers), trace)
    }

    constructor (ts: set<nat>, cs: set<nat>)
      ensures Valid() && threads == ts && consumers == cs && trace == [] && state == WAITING && task == None
    {
      state, task, world, threads, consumers, trace := WAITING, None, Init(ts, cs), ts, cs, [];
      new;
      InitInv(ts, cs);
    }

    /** One step of the thread whose code this is; its effect on the fields has already happened. */
    method Record(a: Action)
      requires Inv(world) && world == Exec(Init(threads, consumers), trace) && Enabled(world, a)
      requires state == Next(world, a).word && task == Next(world, a).cell
      modifies `world, `trace
      ensures Valid() && world == Next(old(world), a) && trace == old(trace) + [a]
    {
      hide Next, Enabled, Inv, Init;
      StepInv(world, a);
      assert [a][0] == a && [a][1..] == [];
      ExecSnoc(Init(threads, consumers), trace, [a]);
      assert Exec(Next(world, a), []) == Next(world, a);
      assert Exec(world, [a]) == Next(world, a);
      world, trace := Next(world, a), trace + [a];
    }

    /** The other threads run for a while: the next part of the schedule. */
    method Meanwhile(env: seq<seq<Action>>, i: nat) returns (rest: seq<seq<Action>>)
      requires Valid() && i in world.threads && forall acts :: acts in env ==> NotBy(acts, i)
      modifies this
      ensures Valid() && old(trace) <= trace && Grown(old(world), world, i)
      ensures forall acts :: acts in rest ==> NotBy(acts, i)
    {
      hide Next, Enabled, Inv, Init;
      if env == [] { return []; }
      RunInv(world, env[0]);
      OthersGrow(world, env[0], i);
      ExecSnoc(Init(threads, consumers), trace, env[0]);
      world, trace := Exec(world, env[0]), trace + env[0];
      state, task := world.word, world.cell;
      rest := env[1..];
    }

    method CompareExchange(expected: nat, desired: nat) returns (seen: nat)
      modifies `state
      ensures seen == old(state) && state == if seen == expected then desired else seen
    {
      seen := state;
      if seen == expected { state := desired; }
    }

    /** `register_task`.  When it returns, its handle counts as registered; until the call no notifier could see it. */
    method RegisterTask(i: nat, t: Task, env: seq<seq<Action>>)
      requires Valid() && i in world.threads && i in world.consumers && world.threads[i] == Resting
      requires world.asleep == None && t == world.issued && forall acts :: acts in env ==> NotBy(acts, i)
      modifies this
      ensures Valid() && old(trace) <= trace && i in world.threads && world.threads[i] == Resting
      ensures t in world.completed && t !in old(world.completed)
    {
      hide Inv, Exec, NotBy, NotifyStep;
      NotYet(world);
      Expected(world, i);
      Record(Register(i));
      var e := Meanwhile(env, i);
      Expected(world, i);
      var actual := CompareExchange(WAITING, REGISTERING);
      Record(Step(i));
      if actual == WAITING {
        Locked(i, t, e);
      } else if actual == NOTIFYING {
        e := Meanwhile(e, i);
        Finish(i);
      } else {
        assert actual == REGISTERING || actual == REGISTERING + NOTIFYING;
      }
    }

    /** The handle is called and the thread is done. */
    method Finish(i: nat)
      requires Valid() && i in world.threads && world.threads[i].Calling?
      modifies this
      ensures Valid() && old(trace) <= trace && i in world.threads && world.threads[i] == Resting
      ensures old(world.threads[i].own) ==> old(world.threads[i].t) in world.completed
      ensures old(world.late) <= world.late && old(world.threads[i].t) in world.notified
    {
      hide Inv, Exec;
      Expected(world, i);
      Record(Step(i));
    }

    /** `register_task` from the moment it holds the lock. */
    method Locked(i: nat, t: Task, env: seq<seq<Action>>)
      requires Valid() && i in world.threads && world.threads[i] == RegStore(t)
      requires forall acts :: acts in env ==> NotBy(acts, i)
      modifies this
      ensures Valid() && old(trace) <= trace && i in world.threads && world.threads[i] == Resting
      ensures t in world.completed
    {
      hide Inv, Exec, NotBy, NotifyStep;
      var e := Meanwhile(env, i);
      Expected(world, i);
      task := Some(t);
      Record(Step(i));
      e := Meanwhile(e, i);
      Expected(world, i);
      var actual := CompareExchange(REGISTERING, WAITING);
      Record(Step(i));
      if actual != REGISTERING {
        assert actual == REGISTERING + NOTIFYING;
        SelfNotify(i, e);
      }
    }

    /** `register_task` after a notifier came while it held the lock. */
    method SelfNotify(i: nat, env: seq<seq<Action>>)
      requires Valid() && i in world.threads && world.threads[i].RegTake?
      requires forall acts :: acts in env ==> NotBy(acts, i)
      modifies this
      ensures Valid() && old(trace) <= trace && i in world.threads && world.threads[i] == Resting
      ensures old(world.threads[i].t) in world.completed && old(world.threads[i].t) in world.notified
    {
      hide Inv, Exec, NotBy, NotifyStep;
      var e := Meanwhile(env, i);
      Expected(world, i);
      assert task.Some?;
      task := None;
      Record(Step(i));
      e := Meanwhile(e, i);
      Expected(world, i);
      state := WAITING;
      Record(Step(i));
      e := Meanwhile(e, i);
      Finish(i);
    }

    /** `notify`.  When it returns, every handle registered before the call has been called for. */
    method Notify(i: nat, env: seq<seq<Action>>)
      requires Valid() && i in world.threads && world.threads[i] == Resting
      requires forall acts :: acts in env ==> NotBy(acts, i)
      modifies this
      ensures Valid() && old(trace) <= trace && i in world.threads && world.threads[i] == Resting
      ensures old(world.completed) <= world.late
      ensures forall t :: t in old(world.completed) ==> Reached(world, t)
    {
      hide Inv, Exec, NotBy, RegisterStep, Reached;
      Expected(world, i);
      Record(Action.Notify(i));
      var e := Meanwhile(env, i);
      Expected(world, i);
      var seen := state;
      state := FetchOrNotifying(state);
      Record(Step(i));
      if seen == WAITING {
        Wake(i, e);
      } else {
        assert seen == REGISTERING || seen == REGISTERING + NOTIFYING || seen == NOTIFYING;
      }
      forall t | t in old(world.completed) ensures Reached(world, t) { LateReached(world, t); }
    }

    /** `notify` from the moment it holds the lock. */
    method Wake(i: nat, env: seq<seq<Action>>)
      requires Valid() && i in world.threads && world.threads[i].NotTake?
      requires forall acts :: acts in env ==> NotBy(acts, i)
      modifies this
      ensures Valid() && old(trace) <= trace && i in world.threads && world.threads[i] == Resting
      ensures old(world.late) <= world.late
    {
      hide Inv, Exec, NotBy, RegisterStep;
      var e := Meanwhile(env, i);
      Expected(world, i);
      var got := task;
      task := None;
      Record(Step(i));
      e := Meanwhile(e, i);
      Expected(world, i);
      state := FetchAndNotNotifying(state);
      Record(Step(i));
      if got.Some? {
        e := Meanwhile(e, i);
        Finish(i);
      }
    }
  }

  lemma NotYet(s: State)
    requires Inv(s)
    ensures s.issued !in s.completed
  {
  }
}
