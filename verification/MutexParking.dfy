/** Parking and waking: which threads the scheduler may pick, over every run of the threads under it. */
module MutexParking {
  import opened Wrappers
  import opened MutexMachine

  predicate Stopped(th: Thread) { th.state == Blocked || th.state == Yielded }

  /** What an action of thread `me` does to the state of another thread. */
  lemma OthersExact(s: State, a: Action, t: nat)
    requires Enabled(s, a) && t < |s.threads| && s.active != Some(t)
    ensures t < |Next(s, a).threads|
    ensures var th, th', me := s.threads[t], Next(s, a).threads[t], s.threads[s.active.value];
            && th'.operation == th.operation && th'.stage == th.stage
            && (th'.state != th.state ==>
                  || (a == Unpark(t) && Stopped(th) && th'.state == Runnable)
                  || (a.Release? && th.operation == Some(a.m) && th'.state == Runnable)
                  || (a.FinishAcquire? && th.operation == Some(me.stage.m) && th'.state == Blocked))
            && (a == Unpark(t) && Stopped(th) ==> th'.state == Runnable)
            && (a.Release? && th.operation == Some(a.m) ==> th'.state == Runnable)
            && (a.FinishAcquire? && th.operation == Some(me.stage.m) ==> th'.state == Blocked)
  {
  }

  /** And to its own: parking, yielding and ending stop it, and so does finding a mutex held; nothing else does. */
  lemma OwnExact(s: State, a: Action)
    requires Enabled(s, a)
    ensures s.active.value < |Next(s, a).threads|
    ensures var th, th' := s.threads[s.active.value], Next(s, a).threads[s.active.value];
            && th'.state == (match a
                             case Park(_) => Blocked
                             case Yield(_) => Yielded
                             case Finish(_) => Terminated
                             case BeginAcquire(m, _) => if Locked(s, m) then Blocked else th.state
                             case _ => th.state)
            && th'.operation == (match a
                                 case Branch(o, _) => Some(o)
                                 case BeginAcquire(m, _) => Some(m)
                                 case Park(_) => None
                                 case Yield(_) => None
                                 case Finish(_) => None
                                 case _ => th.operation)
  {
  }

  /** Does this action call the scheduler? */
  predicate Schedules(a: Action) { a.Branch? || a.Park? || a.Yield? || a.Finish? || a.BeginAcquire? }

  /** The same action, with another thread picked. */
  function Picking(a: Action, next: Option<nat>): Action
    requires Schedules(a)
  {
    match a
    case Branch(o, _) => Branch(o, next)
    case Park(_) => Park(next)
    case Yield(_) => Yield(next)
    case Finish(_) => Finish(next)
    case BeginAcquire(m, _) => BeginAcquire(m, next)
  }

  /** Thread `t` is not active at the start of the run, nor picked in it. */
  predicate Rests(s: State, acts: seq<Action>, t: nat)
    decreases |acts|
  {
    && s.active != Some(t)
    && (acts == [] || Rests(if Enabled(s, acts[0]) then Next(s, acts[0]) else s, acts[1..], t))
  }

  /** Ready to run: nothing but its own action can stop it. */
  predicate Ready(s: State, t: nat) {
    t < |s.threads| && s.threads[t].state == Runnable && s.threads[t].operation == None
  }

  lemma {:induction false} ReadyStays(s: State, acts: seq<Action>, t: nat)
    requires Ready(s, t) && Rests(s, acts, t)
    ensures Ready(Exec(s, acts), t) && Exec(s, acts).active != Some(t)
    decreases |acts|
  {
    hide Enabled, Next;
    if acts != [] {
      if Enabled(s, acts[0]) {
        OthersExact(s, acts[0], t);
        ReadyStays(Next(s, acts[0]), acts[1..], t);
      } else {
        ReadyStays(s, acts[1..], t);
      }
    }
  }

  /** Whoever calls the scheduler, it may pick a ready thread, and cannot find that nobody can run. */
  lemma ReadyPicked(s: State, a: Action, t: nat)
    requires Ready(s, t) && s.active != Some(t) && Schedules(a) && Enabled(s, a)
    ensures Enabled(s, Picking(a, Some(t))) && Next(s, Picking(a, Some(t))).active == Some(t)
    ensures !Enabled(s, Picking(a, None))
  {
    assert AtBranch(s, a) == AtBranch(s, Picking(a, Some(t))) == AtBranch(s, Picking(a, None));
    assert AtBranch(s, a)[t] == s.threads[t];
    hide AtBranch;
  }

  /**
   * A parked thread that is unparked, or a new one, may be picked whenever the scheduler is called,
   * until it is; as long as it is not, the scheduler never finds that nobody can run.
   */
  lemma UnparkedMayRun(s: State, t: nat, acts: seq<Action>, a: Action)
    requires Enabled(s, Unpark(t)) && s.active != Some(t) && Stopped(s.threads[t]) && s.threads[t].operation == None
    requires var s' := Next(s, Unpark(t)); Rests(s', acts, t) && Schedules(a) && Enabled(Exec(s', acts), a)
    ensures var s' := Exec(Next(s, Unpark(t)), acts);
            && Enabled(s', Picking(a, Some(t))) && Next(s', Picking(a, Some(t))).active == Some(t)
            && !Enabled(s', Picking(a, None))
  {
    OthersExact(s, Unpark(t), t);
    var s' := Next(s, Unpark(t));
    hide Next, Enabled, Rests, Exec;
    ReadyStays(s', acts, t);
    ReadyPicked(Exec(s', acts), a, t);
  }

  lemma SpawnedMayRun(s: State, acts: seq<Action>, a: Action)
    requires Enabled(s, Spawn)
    requires var s' := Next(s, Spawn); Rests(s', acts, |s.threads|) && Schedules(a) && Enabled(Exec(s', acts), a)
    ensures var s', t := Exec(Next(s, Spawn), acts), |s.threads|;
            && Enabled(s', Picking(a, Some(t))) && Next(s', Picking(a, Some(t))).active == Some(t)
            && !Enabled(s', Picking(a, None))
  {
    var s', t := Next(s, Spawn), |s.threads|;
    assert Ready(s', t);
    hide Next, Enabled, Rests, Exec;
    ReadyStays(s', acts, t);
    ReadyPicked(Exec(s', acts), a, t);
  }

  /** Parked, yielded or ended. */
  predicate AtRest(s: State, t: nat) {
    t < |s.threads| && s.active != Some(t) && s.threads[t].state != Runnable && s.threads[t].operation == None
  }

  /** It stays so, and is not picked, as long as nobody unparks it; an ended thread does for good. */
  lemma {:induction false} AtRestStays(s: State, acts: seq<Action>, t: nat)
    requires AtRest(s, t) && (Unpark(t) !in acts || s.threads[t].state == Terminated)
    ensures AtRest(Exec(s, acts), t) && Exec(s, acts).threads[t].state == s.threads[t].state
    decreases |acts|
  {
    hide Enabled, Next;
    if acts != [] {
      var a := acts[0];
      if Enabled(s, a) {
        OthersExact(s, a, t);
        NotPicked(s, a, t);
        AtRestStays(Next(s, a), acts[1..], t);
      } else {
        AtRestStays(s, acts[1..], t);
      }
    }
  }

  /** Only a runnable thread is picked. */
  lemma NotPicked(s: State, a: Action, t: nat)
    requires Enabled(s, a) && t < |s.threads| && s.active != Some(t) && s.threads[t].state != Runnable
    ensures Next(s, a).active != Some(t)
  {
  }

  /** A thread that parks, yields or ends is not picked again before somebody unparks it; after it has ended, never. */
  lemma RestsUntilUnparked(s: State, a: Action, acts: seq<Action>)
    requires Enabled(s, a) && (a.Park? || a.Yield? || a.Finish?)
    requires a.Finish? || Unpark(s.active.value) !in acts
    ensures var s', t := Exec(Next(s, a), acts), s.active.value; s'.active != Some(t) && AtRest(s', t)
  {
    OwnExact(s, a);
    var t := s.active.value;
    assert AtBranch(s, a)[t].state != Runnable;
    var s' := Next(s, a);
    assert AtRest(s', t);
    hide Enabled, Next;
    AtRestStays(s', acts, t);
  }
}
