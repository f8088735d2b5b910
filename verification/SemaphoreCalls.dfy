/**
 * `poll_permit` and `release_one` as they are written, with arbitrary steps of the other tasks
 * and threads between any two of their own atomic operations.
 */
module SemaphoreCalls {
  import opened Wrappers
  import opened SemaphoreMachine
  import opened SemaphoreInvariant
  import opened SemaphoreRuns
  import opened SemaphoreCallSteps
  import T = SemaphoreTheorems
  import Code = SemaphoreCode

  class Semaphore {
    var state: Word
    var head: Ref
    var rxLock: nat
    /** The fields of the nodes. */
    var next: map<Ref, Option<Ref>>
    var nodes: map<nat, NodeState>
    /** The semaphore with its callers, as the machine sees them. */
    var world: State
    ghost const origin: State
    ghost var trace: seq<Action>

    function Fields(): Shared
      reads this
    {
      Shared(state, head, rxLock, next, nodes)
    }

    ghost predicate Valid()
      reads this
    {
      Fields() == SharedOf(world) && Inv(world) && world == Exec(origin, trace)
    }

    /** What a caller has done to queue and permits so far. */
    ghost function Did(c: Caller): seq<Op>
      reads this
    {
      OpsBy(origin, trace, c)
    }

    constructor (permits: nat, ws: set<nat>, rs: set<nat>)
      requires permits > 0
      ensures Valid() && origin == Init(permits, ws, rs) && trace == []
    {
      var s := Init(permits, ws, rs);
      state, head, rxLock, next, nodes := s.word, s.head, s.rx, s.next, Nodes(s.waiters);
      world, origin, trace := s, s, [];
      new;
      T.InitInv(permits, ws, rs);
    }

    /** One step of the caller whose code this is; its effect on the fields has already happened. */
    method Record(a: Action)
      requires Inv(world) && world == Exec(origin, trace) && Enabled(world, a) && Fields() == SharedOf(Next(world, a))
      modifies `world, `trace
      ensures Valid() && world == Next(old(world), a) && trace == old(trace) + [a]
      ensures forall c :: Did(c) == old(Did(c)) + OpBy(old(world), a, c)
    {
      hide Next, Enabled, Inv, OpBy;
      T.StepInv(world, a);
      forall c
        ensures Exec(origin, trace + [a]) == Next(world, a)
        ensures OpsBy(origin, trace + [a], c) == OpsBy(origin, trace, c) + OpBy(world, a, c)
      {
        OpsConcat(origin, trace, [a], c);
        OneOp(world, a, c);
      }
      OpsConcat(origin, trace, [a], Task(0));
      OneOp(world, a, Task(0));
      world, trace := Next(world, a), trace + [a];
    }

    /** The others run for a while: the next part of the schedule, as one caller sees it. */
    method Meanwhile(env: seq<seq<Action>>, c: Caller) returns (rest: seq<seq<Action>>)
      requires Valid() && forall acts :: acts in env ==> NotBy(acts, c)
      modifies this
      ensures Valid() && old(trace) <= trace && CallKept(old(world), world, c) && Did(c) == old(Did(c))
      ensures rest == if env == [] then [] else env[1..]
      ensures env == [] ==> world == old(world) && state == old(state)
    {
      hide Next, Enabled, Inv;
      if env == [] { return []; }
      T.RunInv(world, env[0]);
      OthersKeep(world, env[0], c);
      OpsConcat(origin, trace, env[0], c);
      world, trace := Exec(world, env[0]), trace + env[0];
      state, head, rxLock, next, nodes := world.word, world.head, world.rx, world.next, Nodes(world.waiters);
      rest := env[1..];
    }

    method CompareExchange(expected: Word, desired: Word) returns (seen: Word)
      modifies `state
      ensures seen == old(state) && state == if seen == expected then desired else seen
    {
      seen := state;
      if seen == expected { state := desired; }
    }

    method CompareExchangeNode(w: nat, expected: NodeState, desired: NodeState) returns (seen: NodeState)
      requires w in nodes
      modifies `nodes
      ensures seen == old(nodes)[w] && nodes == if seen == expected then old(nodes)[w := desired] else old(nodes)
    {
      seen := nodes[w];
      if seen == expected { nodes := nodes[w := desired]; }
    }

    /** One compare-and-swap of `to_queued_waiting`. */
    method TryWaiting(w: nat, curr: NodeState, env: seq<seq<Action>>) returns (seen: NodeState, rest: seq<seq<Action>>)
      requires Valid() && w in world.waiters && world.waiters[w].pc.CasNodeState? && world.waiters[w].pc.seen == curr
      requires forall acts :: acts in env ==> NotBy(acts, Task(w))
      modifies this
      ensures Valid() && old(trace) <= trace && w in world.waiters && Did(Task(w)) == old(Did(Task(w)))
      ensures var word := old(world.waiters[w].pc.curr);
              if seen != curr then world.waiters[w].pc == CasNodeState(word, seen) && w in nodes && nodes[w] == seen
              else if curr == Queued then world.waiters[w].pc == Out && world.waiters[w].waiting
              else curr == Idle && world.waiters[w].pc == ClearNext(word)
      ensures rest == if env == [] then [] else env[1..]
      ensures env == [] && w in old(nodes) ==> seen == old(nodes)[w]
      ensures env == [] ==> state == old(state)
    {
      hide Inv, Exec, NotBy, Next, PollOk, OpOf, OpsBy, Enabled, SharedOf;
      rest := Meanwhile(env, Task(w));
      CallFacts(world, w);
      CasNodeSteps(world, w);
      assert curr == Idle || curr == Queued;
      seen := CompareExchangeNode(w, curr, QueuedWaiting);
      Record(PollStep(w));
    }

    /** The node has become `QueuedWaiting`: its next pointer is reset. */
    method ResetNext(w: nat, env: seq<seq<Action>>) returns (rest: seq<seq<Action>>)
      requires Valid() && w in world.waiters && world.waiters[w].pc.ClearNext?
      requires forall acts :: acts in env ==> NotBy(acts, Task(w))
      modifies this
      ensures Valid() && old(trace) <= trace && w in world.waiters && Did(Task(w)) == old(Did(Task(w)))
      ensures world.waiters[w].pc == PollCas(old(world.waiters[w].pc.curr), true, true)
      ensures rest == if env == [] then [] else env[1..]
      ensures env == [] ==> state == old(state)
    {
      hide Inv, Exec, NotBy, Next, PollOk, OpOf, OpsBy, Enabled, SharedOf;
      rest := Meanwhile(env, Task(w));
      CallFacts(world, w);
      ClearSteps(world, w);
      next := next[Node(w) := None];
      Record(PollStep(w));
    }

    /** `to_queued_waiting`, with its retry loop: true if the node must now be pushed. */
    method ToQueuedWaiting(w: nat, env: seq<seq<Action>>) returns (push: bool, rest: seq<seq<Action>>)
      requires Valid() && w in world.waiters && world.waiters[w].pc.LoadNodeState?
      requires forall acts :: acts in env ==> NotBy(acts, Task(w))
      modifies this
      ensures Valid() && old(trace) <= trace && w in world.waiters && Did(Task(w)) == old(Did(Task(w)))
      ensures world.waiters[w].pc == if push then PollCas(old(world.waiters[w].pc.curr), true, true) else Out
      ensures !push ==> world.waiters[w].waiting
      ensures |rest| <= |env| && forall acts :: acts in rest ==> NotBy(acts, Task(w))
      ensures env == [] ==> state == old(state)
    {
      hide Inv, Exec, NotBy, Next, PollOk, OpOf, OpsBy, Enabled, SharedOf;
      rest := Meanwhile(env, Task(w));
      CallFacts(world, w);
      LoadSteps(world, w);
      var curr := nodes[w];
      Record(PollStep(w));
      while true
        invariant Valid() && old(trace) <= trace && w in world.waiters && Did(Task(w)) == old(Did(Task(w)))
        invariant world.waiters[w].pc == CasNodeState(old(world.waiters[w].pc.curr), curr)
        invariant |rest| <= |env| && forall acts :: acts in rest ==> NotBy(acts, Task(w))
        invariant w in nodes && (env == [] ==> state == old(state))
        decreases |rest|, nodes[w] != curr
      {
        var seen;
        seen, rest := TryWaiting(w, curr, rest);
        if seen == curr {
          if curr == Queued { return false, rest; }
          rest := ResetNext(w, rest);
          return true, rest;
        }
        curr := seen;
      }
    }

    /** The compare-and-swap of `poll_permit`, and what follows if it succeeds. */
    method TryPoll(w: nat, curr: Word, strong: bool, env: seq<seq<Action>>)
      returns (seen: Word, rest: seq<seq<Action>>)
      requires Valid() && w in world.waiters && world.waiters[w].pc.PollCas?
      requires world.waiters[w].pc.curr == curr && world.waiters[w].pc.strong == strong
      requires forall acts :: acts in env ==> NotBy(acts, Task(w))
      modifies this
      ensures Valid() && old(trace) <= trace && w in world.waiters && (curr.Tail? ==> strong)
      ensures if seen != curr then
                world.waiters[w].pc == Decide(seen, strong, old(world.waiters[w].pc.reg)) && !world.waiters[w].waiting
                && state == seen && Did(Task(w)) == old(Did(Task(w)))
              else
                world.waiters[w].pc == Out && (world.waiters[w].waiting <==> curr.Tail?)
                && Did(Task(w)) == old(Did(Task(w))) + [if curr.Num? then Take else Push(w)]
      ensures |rest| <= |env| && (env == [] ==> seen == old(state))
      ensures seen != curr ==> rest == if env == [] then [] else env[1..]
      ensures forall acts :: acts in rest ==> NotBy(acts, Task(w))
    {
      hide Inv, Exec, NotBy, Next, PollOk, OpsBy, Enabled, SharedOf, OpOf;
      rest := Meanwhile(env, Task(w));
      CallFacts(world, w);
      CasSteps(world, w);
      assert curr != Num(0) && (curr.Tail? ==> strong);
      seen := CompareExchange(curr, if curr.Num? then TakeOne(curr.permits) else Tail(Node(w)));
      Record(PollStep(w));
      if seen == curr {
        if curr.Tail? { rest := FinishPush(w, curr.tail, rest); }
        else if strong { rest := RevertToIdle(w, rest); }
      }
    }

    /** The store that links the predecessor to the node. */
    method FinishPush(w: nat, prev: Ref, env: seq<seq<Action>>) returns (rest: seq<seq<Action>>)
      requires Valid() && w in world.waiters && world.waiters[w].pc.LinkPrev? && world.waiters[w].pc.prev == prev
      requires forall acts :: acts in env ==> NotBy(acts, Task(w))
      modifies this
      ensures Valid() && old(trace) <= trace && w in world.waiters && Did(Task(w)) == old(Did(Task(w)))
      ensures world.waiters[w].pc == Out && world.waiters[w].waiting
      ensures |rest| <= |env| && forall acts :: acts in rest ==> NotBy(acts, Task(w))
    {
      hide Inv, Exec, NotBy, Next, PollOk, OpsBy, Enabled, SharedOf, OpOf;
      rest := Meanwhile(env, Task(w));
      CallFacts(world, w);
      LinkSteps(world, w);
      next := next[prev := Some(Node(w))];
      Record(PollStep(w));
    }

    /** `revert_to_idle`: the node was prepared for a push that did not happen. */
    method RevertToIdle(w: nat, env: seq<seq<Action>>) returns (rest: seq<seq<Action>>)
      requires Valid() && w in world.waiters && world.waiters[w].pc.Revert?
      requires forall acts :: acts in env ==> NotBy(acts, Task(w))
      modifies this
      ensures Valid() && old(trace) <= trace && w in world.waiters && Did(Task(w)) == old(Did(Task(w)))
      ensures world.waiters[w].pc == Out && !world.waiters[w].waiting
      ensures |rest| <= |env| && forall acts :: acts in rest ==> NotBy(acts, Task(w))
    {
      hide Inv, Exec, NotBy, Next, PollOk, OpsBy, Enabled, SharedOf, OpOf;
      rest := Meanwhile(env, Task(w));
      CallFacts(world, w);
      RevertSteps(world, w);
      nodes := nodes[w := Idle];
      Record(PollStep(w));
    }

    /**
     * `poll_permit`, whatever the others do meanwhile.  It takes one permit, or leaves the task
     * waiting with its node pushed once or its standing request revived, or, without a waiter,
     * does nothing.
     */
    method PollPermit(w: nat, reg: bool, env: seq<seq<Action>>) returns (r: Code.Poll)
      requires Valid() && w in world.waiters && world.waiters[w].pc == Out && !world.waiters[w].waiting
      requires forall acts :: acts in env ==> NotBy(acts, Task(w))
      modifies this
      ensures Valid() && old(trace) <= trace && w in world.waiters && world.waiters[w].pc == Out
      ensures world.waiters[w].waiting <==> r == Code.NotReady
      ensures match r
              case Ready => Did(Task(w)) == old(Did(Task(w))) + [Take]
              case NotReady =>
                reg && (Did(Task(w)) == old(Did(Task(w))) + [Push(w)] || Did(Task(w)) == old(Did(Task(w))))
              case Unregistered => !reg && Did(Task(w)) == old(Did(Task(w)))
      ensures env == [] ==> (r == Code.Ready <==> old(state).Num?)
    {
      hide Inv, Exec, NotBy, Next, PollOk, OpsBy, Enabled, SharedOf, OpOf;
      CallFacts(world, w);
      CallSteps(world, w, reg);
      var curr := state;
      Record(PollCall(w, reg));
      var rest, strong := env, false;
      while true
        invariant Valid() && old(trace) <= trace && w in world.waiters
        invariant Did(Task(w)) == old(Did(Task(w))) && (strong ==> reg)
        invariant world.waiters[w].pc == Decide(curr, strong, reg) && !world.waiters[w].waiting
        invariant forall acts :: acts in rest ==> NotBy(acts, Task(w))
        invariant env == [] ==> rest == [] && curr == state == old(state)
        decreases |rest|, !strong, state != curr
      {
        if curr.Tail? && !strong {
          if !reg { return Code.Unregistered; }
          var push;
          push, rest := ToQueuedWaiting(w, rest);
          if !push { return Code.NotReady; }
          strong := true;
        }
        var seen;
        seen, rest := TryPoll(w, curr, strong, rest);
        if seen == curr { return if curr.Tail? then Code.NotReady else Code.Ready; }
        curr := seen;
      }
    }

    /** One read of the shared memory by thread `r`. */
    method Read(r: nat)
      requires Valid() && r in world.rel && world.rel[r].Busy? && ReadPc(world.rel[r].pc)
      modifies `world, `trace
      ensures Valid() && old(trace) <= trace && r in world.rel
      ensures world.rel[r] == old(world.rel[r]).(pc := AfterRead(Fields(), old(world.rel[r].pc)))
      ensures old(world.rel[r].pc.LoadTail?) ==> state.Tail?
      ensures Enabled(old(world), ReleaseStep(r)) && world == Next(old(world), ReleaseStep(r))
      ensures world.served == old(world.served) && world.pushed == old(world.pushed)
      ensures Did(Thread(r)) == old(Did(Thread(r)))
    {
      hide Inv, Exec, NotBy, Next, OpsBy, Enabled, SharedOf, OpBy;
      ThreadFacts(world, r);
      ReadSteps(world, r);
      assert state == world.word by { WordShared(world); }
      Record(ReleaseStep(r));
    }

    lemma WordShared(s: State)
      ensures SharedOf(s).word == s.word && forall x :: NextAt(SharedOf(s), x) == NextOf(s, x)
      ensures SharedOf(s).head == s.head && SharedOf(s).rx == s.rx
    {
    }

    /** One compare-and-swap of the inner loop of `pop`. */
    method TryAdd(r: nat, b: nat, n: nat, curr: Word, env: seq<seq<Action>>)
      returns (seen: Word, rest: seq<seq<Action>>)
      requires Valid() && r in world.rel && world.rel[r] == Busy(b, n, AddPermits(curr))
      requires forall acts :: acts in env ==> NotBy(acts, Thread(r))
      modifies this
      ensures Valid() && old(trace) <= trace && r in world.rel && world.served == old(world.served)
      ensures if seen == curr then
                world.rel[r] == Busy(b, 0, FetchSub) && Did(Thread(r)) == old(Did(Thread(r))) + [Give(n)]
              else world.rel[r] == Busy(b, n, CheckAdd(seen)) && Did(Thread(r)) == old(Did(Thread(r))) && state == seen
      ensures rest == if env == [] then [] else env[1..]
      ensures env == [] ==> seen == old(state) && world.pushed == old(world.pushed) && rxLock == old(rxLock)
    {
      hide Inv, Exec, NotBy, Next, OpsBy, Enabled, SharedOf, OpBy;
      rest := Meanwhile(env, Thread(r));
      ThreadFacts(world, r);
      AddSteps(world, r);
      seen := CompareExchange(curr, Num(if curr.Num? then curr.permits + n else n));
      Record(ReleaseStep(r));
    }

    /** `pop` has found the stub alone: the word is read. */
    method LoadState(r: nat, b: nat, n: nat, env: seq<seq<Action>>) returns (curr: Word, rest: seq<seq<Action>>)
      requires Valid() && r in world.rel && world.rel[r] == Busy(b, n, LoadWord)
      requires env == [] ==> NextAt(Fields(), Stub) == None
      requires forall acts :: acts in env ==> NotBy(acts, Thread(r))
      modifies this
      ensures Valid() && old(trace) <= trace && r in world.rel && world.served == old(world.served)
      ensures world.rel[r] == Busy(b, n, CheckAdd(curr)) && Did(Thread(r)) == old(Did(Thread(r))) && state == curr
      ensures env == [] ==> world.pushed == old(world.pushed) && rxLock == old(rxLock)
      ensures rest == if env == [] then [] else env[1..]
      ensures env == [] && curr.Tail? && curr.tail != Stub ==> HalfPush(world)
    {
      hide Inv, Exec, NotBy, Next, OpsBy, Enabled, SharedOf, OpBy;
      hide HalfPush;
      rest := Meanwhile(env, Thread(r));
      curr := state;
      if env == [] && curr.Tail? && curr.tail != Stub {
        WordShared(world);
        HeadKnown(world, r);
        InconsistentOnlyByPush(world, r);
      }
      Read(r);
    }

    /** The inner loop of `pop`: adds the remaining permits, unless a waiter has been pushed. */
    method AddRemaining(r: nat, b: nat, n: nat, env: seq<seq<Action>>) returns (turn: Turn, rest: seq<seq<Action>>)
      requires Valid() && r in world.rel && world.rel[r] == Busy(b, n, LoadWord) && n > 0
      requires env == [] ==> NextAt(Fields(), Stub) == None
      requires forall acts :: acts in env ==> NotBy(acts, Thread(r))
      modifies this
      ensures Valid() && old(trace) <= trace && r in world.rel && world.served == old(world.served)
      ensures turn == Drained || turn == Again
      ensures turn == Drained ==>
                world.rel[r] == Busy(b, 0, FetchSub) && Did(Thread(r)) == old(Did(Thread(r))) + [Give(n)]
      ensures turn == Again ==> world.rel[r] == Busy(b, n, ReadHead) && Did(Thread(r)) == old(Did(Thread(r)))
      ensures env == [] ==> world.pushed == old(world.pushed) && rxLock == old(rxLock)
      ensures turn == Again && env == [] ==> HalfPush(world)
      ensures |rest| <= |env| && forall acts :: acts in rest ==> NotBy(acts, Thread(r))
    {
      hide Inv, Exec, NotBy, Next, OpsBy, Enabled, SharedOf, OpBy, HalfPush, NextAt;
      var curr;
      curr, rest := LoadState(r, b, n, env);
      while !(curr.Tail? && curr.tail != Stub)
        invariant Valid() && old(trace) <= trace && r in world.rel && world.served == old(world.served)
        invariant world.rel[r] == Busy(b, n, CheckAdd(curr)) && Did(Thread(r)) == old(Did(Thread(r)))
        invariant |rest| <= |env| && forall acts :: acts in rest ==> NotBy(acts, Thread(r))
        invariant env == [] ==>
                    rest == [] && curr == state && world.pushed == old(world.pushed) && rxLock == old(rxLock)
        invariant env == [] && curr.Tail? && curr.tail != Stub ==> HalfPush(world)
        decreases |rest|, state != curr
      {
        var seen;
        seen, rest := TryAdd(r, b, n, curr, rest);
        if seen == curr { return Drained, rest; }
        curr := seen;
      }
      turn := Again;
    }

    /** `pop` at a head without successor: is it the tail? */
    method LoadTail(r: nat, b: nat, n: nat, h: Ref, env: seq<seq<Action>>) returns (sole: bool, rest: seq<seq<Action>>)
      requires Valid() && r in world.rel && world.rel[r] == Busy(b, n, RelPc.LoadTail(h))
      requires env == [] ==> NextAt(Fields(), h) == None
      requires forall acts :: acts in env ==> NotBy(acts, Thread(r))
      modifies this
      ensures Valid() && old(trace) <= trace && r in world.rel && world.served == old(world.served)
      ensures world.rel[r] == Busy(b, n, if sole then RelPc.ClearStub(h) else ReadHead)
      ensures Did(Thread(r)) == old(Did(Thread(r)))
      ensures env == [] ==> world.pushed == old(world.pushed) && rxLock == old(rxLock)
      ensures rest == if env == [] then [] else env[1..]
      ensures !sole && env == [] ==> HalfPush(world)
    {
      hide Inv, Exec, NotBy, Next, OpsBy, Enabled, SharedOf, OpBy, HalfPush;
      rest := Meanwhile(env, Thread(r));
      var tail := state;
      sole := tail == Tail(h);
      if env == [] && !sole {
        WordShared(world);
        HeadKnown(world, r);
        InconsistentOnlyByPush(world, r);
      }
      Read(r);
      assert tail.Tail?;
    }

    /** `push_stub`. */
    method PushStub(r: nat, b: nat, n: nat, h: Ref, env: seq<seq<Action>>) returns (rest: seq<seq<Action>>)
      requires Valid() && r in world.rel && world.rel[r] == Busy(b, n, RelPc.ClearStub(h))
      requires forall acts :: acts in env ==> NotBy(acts, Thread(r))
      modifies this
      ensures Valid() && old(trace) <= trace && r in world.rel && world.served == old(world.served)
      ensures world.rel[r] == Busy(b, n, RelPc.Recheck(h)) && Did(Thread(r)) == old(Did(Thread(r)))
      ensures env == [] ==> world.pushed == old(world.pushed) && rxLock == old(rxLock)
      ensures |rest| <= |env| && forall acts :: acts in rest ==> NotBy(acts, Thread(r))
      ensures |world.hist| > world.front + 1
    {
      hide Inv, Exec, NotBy, Next, OpsBy, Enabled, SharedOf, OpBy;
      rest := ClearStub(r, b, n, h, env);
      var prev;
      prev, rest := SwapTail(r, b, n, h, rest);
      rest := LinkStub(r, b, n, h, prev, rest);
    }

    /** Its first store. */
    method ClearStub(r: nat, b: nat, n: nat, h: Ref, env: seq<seq<Action>>) returns (rest: seq<seq<Action>>)
      requires Valid() && r in world.rel && world.rel[r] == Busy(b, n, RelPc.ClearStub(h))
      requires forall acts :: acts in env ==> NotBy(acts, Thread(r))
      modifies this
      ensures Valid() && old(trace) <= trace && r in world.rel && world.served == old(world.served)
      ensures world.rel[r] == Busy(b, n, RelPc.SwapTail(h)) && Did(Thread(r)) == old(Did(Thread(r)))
      ensures env == [] ==> world.pushed == old(world.pushed) && rxLock == old(rxLock)
      ensures rest == if env == [] then [] else env[1..]
    {
      hide Inv, Exec, NotBy, Next, OpsBy, Enabled, SharedOf, OpBy;
      rest := Meanwhile(env, Thread(r));
      ThreadFacts(world, r);
      StubSteps(world, r);
      next := next[Stub := None];
      Record(ReleaseStep(r));
    }

    /** The swap that makes the stub the tail. */
    method SwapTail(r: nat, b: nat, n: nat, h: Ref, env: seq<seq<Action>>) returns (prev: Ref, rest: seq<seq<Action>>)
      requires Valid() && r in world.rel && world.rel[r] == Busy(b, n, RelPc.SwapTail(h))
      requires forall acts :: acts in env ==> NotBy(acts, Thread(r))
      modifies this
      ensures Valid() && old(trace) <= trace && r in world.rel && world.served == old(world.served)
      ensures world.rel[r].Busy? && world.rel[r].pc.LinkStub? && prev != Stub
      ensures world.rel[r] == Busy(b, n, RelPc.LinkStub(h, prev, world.rel[r].pc.pos))
      ensures Did(Thread(r)) == old(Did(Thread(r)))
      ensures env == [] ==> world.pushed == old(world.pushed) && rxLock == old(rxLock)
      ensures rest == if env == [] then [] else env[1..]
    {
      hide Inv, Exec, NotBy, Next, OpsBy, Enabled, SharedOf, OpBy;
      rest := Meanwhile(env, Thread(r));
      ThreadFacts(world, r);
      StubSteps(world, r);
      assert state.Tail?;
      prev := state.tail;
      state := Tail(Stub);
      Record(ReleaseStep(r));
    }

    /** The last store of `push_stub`. */
    method LinkStub(r: nat, b: nat, n: nat, h: Ref, prev: Ref, env: seq<seq<Action>>) returns (rest: seq<seq<Action>>)
      requires Valid() && r in world.rel && world.rel[r].Busy? && world.rel[r].pc.LinkStub?
      requires world.rel[r] == Busy(b, n, RelPc.LinkStub(h, prev, world.rel[r].pc.pos))
      requires forall acts :: acts in env ==> NotBy(acts, Thread(r))
      modifies this
      ensures Valid() && old(trace) <= trace && r in world.rel && world.served == old(world.served)
      ensures world.rel[r] == Busy(b, n, RelPc.Recheck(h)) && Did(Thread(r)) == old(Did(Thread(r)))
      ensures env == [] ==> world.pushed == old(world.pushed) && rxLock == old(rxLock)
      ensures rest == if env == [] then [] else env[1..]
      ensures |world.hist| > world.front + 1
    {
      hide Inv, Exec, NotBy, Next, OpsBy, Enabled, SharedOf, OpBy;
      rest := Meanwhile(env, Thread(r));
      ThreadFacts(world, r);
      StubSteps(world, r);
      StubBehind(world, r);
      next := next[prev := Some(Stub)];
      Record(ReleaseStep(r));
    }

    /** `pop` after it has pushed the stub: is the head linked now? */
    method Recheck(r: nat, b: nat, n: nat, h: Ref, env: seq<seq<Action>>)
      returns (nx: Option<Ref>, rest: seq<seq<Action>>)
      requires Valid() && r in world.rel && world.rel[r] == Busy(b, n, RelPc.Recheck(h))
      requires env == [] ==> |world.hist| > world.front + 1
      requires forall acts :: acts in env ==> NotBy(acts, Thread(r))
      modifies this
      ensures Valid() && old(trace) <= trace && r in world.rel && world.served == old(world.served)
      ensures world.rel[r] == Busy(b, n, if nx.Some? then RelPc.TakeHead(h, nx.value) else ReadHead)
      ensures Did(Thread(r)) == old(Did(Thread(r)))
      ensures env == [] ==> world.pushed == old(world.pushed) && rxLock == old(rxLock)
      ensures rest == if env == [] then [] else env[1..]
      ensures nx.None? && env == [] ==> HalfPush(world)
    {
      hide Inv, Exec, NotBy, Next, OpsBy, Enabled, SharedOf, OpBy, HalfPush;
      rest := Meanwhile(env, Thread(r));
      nx := NextAt(Fields(), h);
      if env == [] && nx.None? {
        WordShared(world);
        HeadKnown(world, r);
        InconsistentOnlyByPush(world, r);
      }
      Read(r);
    }

    /** `pop` at a head without successor. */
    method SoleWaiter(r: nat, b: nat, n: nat, h: Ref, env: seq<seq<Action>>)
      returns (nx: Option<Ref>, rest: seq<seq<Action>>)
      requires Valid() && r in world.rel && world.rel[r] == Busy(b, n, RelPc.LoadTail(h))
      requires env == [] ==> NextAt(Fields(), h) == None
      requires forall acts :: acts in env ==> NotBy(acts, Thread(r))
      modifies this
      ensures Valid() && old(trace) <= trace && r in world.rel && world.served == old(world.served)
      ensures world.rel[r] == Busy(b, n, if nx.Some? then RelPc.TakeHead(h, nx.value) else ReadHead)
      ensures Did(Thread(r)) == old(Did(Thread(r)))
      ensures env == [] ==> world.pushed == old(world.pushed) && rxLock == old(rxLock)
      ensures nx.None? && env == [] ==> HalfPush(world)
      ensures |rest| <= |env| && forall acts :: acts in rest ==> NotBy(acts, Thread(r))
    {
      hide Inv, Exec, NotBy, Next, OpsBy, Enabled, SharedOf, OpBy, HalfPush, NextAt;
      var sole;
      sole, rest := LoadTail(r, b, n, h, env);
      if !sole { return None, rest; }
      rest := PushStub(r, b, n, h, rest);
      nx, rest := Recheck(r, b, n, h, rest);
    }

    /** The head's first read in a turn of `pop`. */
    method LoadHead(r: nat, b: nat, n: nat, env: seq<seq<Action>>)
      returns (h: Ref, nx: Option<Ref>, rest: seq<seq<Action>>)
      requires Valid() && r in world.rel && world.rel[r] == Busy(b, n, ReadHead)
      requires forall acts :: acts in env ==> NotBy(acts, Thread(r))
      modifies this
      ensures Valid() && old(trace) <= trace && r in world.rel && world.served == old(world.served)
      ensures nx == NextAt(Fields(), h) && Did(Thread(r)) == old(Did(Thread(r)))
      ensures world.rel[r] ==
              Busy(b, n, if h != Stub then AfterNext(h, nx)
                         else if nx.Some? then RelPc.SkipStub(nx.value) else LoadWord)
      ensures env == [] ==> world.pushed == old(world.pushed) && rxLock == old(rxLock)
      ensures env != [] ==> |rest| < |env|
      ensures |rest| <= |env| && forall acts :: acts in rest ==> NotBy(acts, Thread(r))
    {
      hide Inv, Exec, NotBy, Next, OpsBy, Enabled, SharedOf, OpBy;
      rest := Meanwhile(env, Thread(r));
      h := head;
      Read(r);
      rest := Meanwhile(rest, Thread(r));
      nx := NextAt(Fields(), h);
      Read(r);
    }

    /** The stub leaves the front of the list. */
    method SkipStub(r: nat, b: nat, n: nat, nx: Ref, env: seq<seq<Action>>)
      returns (nx2: Option<Ref>, rest: seq<seq<Action>>)
      requires Valid() && r in world.rel && world.rel[r] == Busy(b, n, RelPc.SkipStub(nx))
      requires forall acts :: acts in env ==> NotBy(acts, Thread(r))
      modifies this
      ensures Valid() && old(trace) <= trace && r in world.rel && world.served == old(world.served)
      ensures nx2 == NextAt(Fields(), nx) && world.rel[r] == Busy(b, n, AfterNext(nx, nx2))
      ensures Did(Thread(r)) == old(Did(Thread(r)))
      ensures env == [] ==> world.pushed == old(world.pushed) && rxLock == old(rxLock)
      ensures |rest| <= |env| && forall acts :: acts in rest ==> NotBy(acts, Thread(r))
    {
      hide Inv, Exec, NotBy, Next, OpsBy, Enabled, SharedOf, OpBy;
      rest := Meanwhile(env, Thread(r));
      ThreadFacts(world, r);
      SkipSteps(world, r);
      head := nx;
      Record(ReleaseStep(r));
      rest := Meanwhile(rest, Thread(r));
      nx2 := NextAt(Fields(), nx);
      Read(r);
    }

    /** The head leaves the list. */
    method TakeHead(r: nat, b: nat, n: nat, h: Ref, nx: Ref, env: seq<seq<Action>>)
      returns (w: nat, rest: seq<seq<Action>>)
      requires Valid() && r in world.rel && world.rel[r] == Busy(b, n, RelPc.TakeHead(h, nx))
      requires forall acts :: acts in env ==> NotBy(acts, Thread(r))
      modifies this
      ensures Valid() && old(trace) <= trace && r in world.rel
      ensures h == Node(w) && world.served == old(world.served) + [w]
      ensures world.rel[r] == Busy(b, n, Notify(w, QueuedWaiting))
      ensures Did(Thread(r)) == old(Did(Thread(r))) + [Op.Pop(w)]
      ensures env == [] ==> world.pushed == old(world.pushed) && rxLock == old(rxLock)
      ensures rest == if env == [] then [] else env[1..]
    {
      hide Inv, Exec, NotBy, Next, OpsBy, Enabled, SharedOf, OpBy;
      rest := Meanwhile(env, Thread(r));
      ThreadFacts(world, r);
      TakeSteps(world, r);
      head := nx;
      w := h.w;
      Record(ReleaseStep(r));
    }

    /** One turn of the outer loop of `pop`. */
    method PopTurn(r: nat, b: nat, n: nat, env: seq<seq<Action>>) returns (turn: Turn, rest: seq<seq<Action>>)
      requires Valid() && r in world.rel && world.rel[r] == Busy(b, n, ReadHead) && n > 0
      requires forall acts :: acts in env ==> NotBy(acts, Thread(r))
      modifies this
      ensures Valid() && old(trace) <= trace && r in world.rel
      ensures env == [] ==> world.pushed == old(world.pushed) && rxLock == old(rxLock)
      ensures turn == Again && env == [] ==> HalfPush(world)
      ensures env != [] ==> |rest| < |env|
      ensures |rest| <= |env| && forall acts :: acts in rest ==> NotBy(acts, Thread(r))
      ensures world.rel[r] == match turn
                              case Got(w) => Busy(b, n, Notify(w, QueuedWaiting))
                              case Drained => Busy(b, 0, FetchSub)
                              case Again => Busy(b, n, ReadHead)
      ensures Did(Thread(r)) == old(Did(Thread(r))) + OfTurn(turn, n)
      ensures world.served == old(world.served) + (if turn.Got? then [turn.w] else [])
    {
      hide Inv, Exec, NotBy, Next, OpsBy, Enabled, SharedOf, OpBy, HalfPush, NextAt;
      var h, nx;
      h, nx, rest := LoadHead(r, b, n, env);
      if h == Stub {
        if nx.None? {
          turn, rest := AddRemaining(r, b, n, rest);
          return;
        }
        h := nx.value;
        nx, rest := SkipStub(r, b, n, h, rest);
      }
      if nx.None? {
        nx, rest := SoleWaiter(r, b, n, h, rest);
        if nx.None? { return Again, rest; }
      }
      var w;
      w, rest := TakeHead(r, b, n, h, nx.value, rest);
      turn := Got(w);
    }

    /**
     * `pop`: the next waiter in the order of the pushes, or none and `n` permits more to take.
     * It gives up only when the schedule ends while a push is half done.
     */
    method Pop(r: nat, b: nat, n: nat, env: seq<seq<Action>>) returns (turn: Turn, rest: seq<seq<Action>>)
      requires Valid() && r in world.rel && world.rel[r] == Busy(b, n, ReadHead) && n > 0
      requires forall acts :: acts in env ==> NotBy(acts, Thread(r))
      modifies this
      ensures Valid() && old(trace) <= trace && r in world.rel
      ensures env == [] ==> world.pushed == old(world.pushed) && rxLock == old(rxLock)
      ensures turn == Again ==> HalfPush(world) && rest == []
      ensures env != [] ==> |rest| < |env|
      ensures |rest| <= |env| && forall acts :: acts in rest ==> NotBy(acts, Thread(r))
      ensures world.rel[r] == match turn
                              case Got(w) => Busy(b, n, Notify(w, QueuedWaiting))
                              case Drained => Busy(b, 0, FetchSub)
                              case Again => Busy(b, n, ReadHead)
      ensures Did(Thread(r)) == old(Did(Thread(r))) + OfTurn(turn, n)
      ensures world.served == old(world.served) + (if turn.Got? then [turn.w] else [])
    {
      hide Inv, Exec, NotBy, Next, OpsBy, Enabled, SharedOf, OpBy, HalfPush;
      turn, rest := PopTurn(r, b, n, env);
      var last := env;
      while turn == Again && last != []
        invariant Valid() && old(trace) <= trace && r in world.rel
        invariant env == [] ==> last == [] && world.pushed == old(world.pushed) && rxLock == old(rxLock)
        invariant turn == Again && last == [] ==> HalfPush(world)
        invariant last != [] ==> |rest| < |last|
        invariant env != [] ==> |rest| < |env|
        invariant |rest| <= |last| <= |env| && forall acts :: acts in rest ==> NotBy(acts, Thread(r))
        invariant world.rel[r] == match turn
                                  case Got(w) => Busy(b, n, Notify(w, QueuedWaiting))
                                  case Drained => Busy(b, 0, FetchSub)
                                  case Again => Busy(b, n, ReadHead)
        invariant Did(Thread(r)) == old(Did(Thread(r))) + OfTurn(turn, n)
        invariant world.served == old(world.served) + (if turn.Got? then [turn.w] else [])
        decreases |last|, |rest|
      {
        last := rest;
        turn, rest := PopTurn(r, b, n, rest);
      }
    }

    /** One compare-and-swap of `notify`. */
    method TryNotify(r: nat, b: nat, n: nat, w: nat, curr: NodeState, env: seq<seq<Action>>)
      returns (seen: NodeState, rest: seq<seq<Action>>)
      requires Valid() && r in world.rel && world.rel[r] == Busy(b, n, Notify(w, curr))
      requires forall acts :: acts in env ==> NotBy(acts, Thread(r))
      modifies this
      ensures Valid() && old(trace) <= trace && r in world.rel && world.served == old(world.served)
      ensures Did(Thread(r)) == old(Did(Thread(r))) && n > 0 && (curr == Queued || curr == QueuedWaiting)
      ensures if seen != curr then world.rel[r] == Busy(b, n, Notify(w, seen)) && w in nodes && nodes[w] == seen
              else if curr == QueuedWaiting then world.rel[r] == Busy(b, n - 1, if n == 1 then FetchSub else ReadHead)
              else world.rel[r] == Busy(b, n, ReadHead)
      ensures rest == if env == [] then [] else env[1..]
      ensures env == [] ==> world.pushed == old(world.pushed) && rxLock == old(rxLock)
      ensures env == [] && w in old(nodes) ==> seen == old(nodes)[w]
    {
      hide Inv, Exec, NotBy, Next, OpsBy, Enabled, SharedOf, OpBy;
      rest := Meanwhile(env, Thread(r));
      ThreadFacts(world, r);
      NotifySteps(world, r);
      assert curr == Queued || curr == QueuedWaiting;
      seen := CompareExchangeNode(w, curr, if curr == Queued then Idle else Assigned);
      Record(ReleaseStep(r));
    }

    /** `notify`: true if the waiter has been assigned the permit. */
    method NotifyNode(r: nat, b: nat, n: nat, w: nat, env: seq<seq<Action>>)
      returns (accepted: bool, rest: seq<seq<Action>>)
      requires Valid() && r in world.rel && world.rel[r] == Busy(b, n, Notify(w, QueuedWaiting)) && n > 0
      requires forall acts :: acts in env ==> NotBy(acts, Thread(r))
      modifies this
      ensures Valid() && old(trace) <= trace && r in world.rel && world.served == old(world.served)
      ensures Did(Thread(r)) == old(Did(Thread(r)))
      ensures world.rel[r] ==
              if !accepted then Busy(b, n, ReadHead) else Busy(b, n - 1, if n == 1 then FetchSub else ReadHead)
      ensures env == [] ==> world.pushed == old(world.pushed) && rxLock == old(rxLock)
      ensures |rest| <= |env| && forall acts :: acts in rest ==> NotBy(acts, Thread(r))
    {
      hide Inv, Exec, NotBy, Next, OpsBy, Enabled, SharedOf, OpBy;
      var curr, seen;
      seen, rest := TryNotify(r, b, n, w, QueuedWaiting, env);
      curr := QueuedWaiting;
      while seen != curr
        invariant Valid() && old(trace) <= trace && r in world.rel && world.served == old(world.served)
        invariant Did(Thread(r)) == old(Did(Thread(r))) && (curr == Queued || curr == QueuedWaiting)
        invariant |rest| <= |env| && forall acts :: acts in rest ==> NotBy(acts, Thread(r))
        invariant env == [] ==> rest == [] && world.pushed == old(world.pushed) && rxLock == old(rxLock)
        invariant if seen != curr then world.rel[r] == Busy(b, n, Notify(w, seen)) && w in nodes && nodes[w] == seen
                  else if curr == QueuedWaiting then
                    world.rel[r] == Busy(b, n - 1, if n == 1 then FetchSub else ReadHead)
                  else world.rel[r] == Busy(b, n, ReadHead)
        decreases |rest|, seen != curr
      {
        curr := seen;
        seen, rest := TryNotify(r, b, n, w, curr, rest);
      }
      accepted := curr == QueuedWaiting;
    }

    /** `release_n`; false if the schedule ends while a push is half done. */
    method ReleaseN(r: nat, b: nat, permits: nat, env: seq<seq<Action>>) returns (done: bool, rest: seq<seq<Action>>)
      requires Valid() && r in world.rel && world.rel[r] == Busy(b, permits, ReadHead) && permits > 0
      requires forall acts :: acts in env ==> NotBy(acts, Thread(r))
      modifies this
      ensures Valid() && old(trace) <= trace && r in world.rel
      ensures done ==> world.rel[r] == Busy(b, 0, FetchSub)
      ensures !done ==> world.rel[r].Busy? && HalfPush(world) && rest == []
      ensures env == [] ==> rxLock == old(rxLock)
      ensures |rest| <= |env| && forall acts :: acts in rest ==> NotBy(acts, Thread(r))
    {
      hide Inv, Exec, NotBy, Next, OpsBy, Enabled, SharedOf, OpBy, HalfPush;
      var n := permits;
      rest := env;
      ServedOfPushed(world);
      while n > 0
        invariant Valid() && old(trace) <= trace && r in world.rel && |world.served| <= |world.pushed|
        invariant world.rel[r] == Busy(b, n, if n == 0 then FetchSub else ReadHead)
        invariant env == [] ==> rest == [] && rxLock == old(rxLock)
        invariant |rest| <= |env| && forall acts :: acts in rest ==> NotBy(acts, Thread(r))
        decreases |rest|, |world.pushed| - |world.served|
      {
        var turn;
        turn, rest := Pop(r, b, n, rest);
        match turn {
          case Again => return false, rest;
          case Drained => return true, rest;
          case Got(w) =>
            var accepted;
            accepted, rest := NotifyNode(r, b, n, w, rest);
            if accepted { n := n - 1; }
        }
        ServedOfPushed(world);
      }
      done := true;
    }

    lemma ServedOfPushed(s: State)
      requires Inv(s)
      ensures |s.served| <= |s.pushed|
    {
      hide Core;
      T.WaitersConcat(s.hist[..s.front], s.hist[s.front..]);
      assert s.hist[..s.front] + s.hist[s.front..] == s.hist;
    }

    /** `rx_lock.fetch_sub` at the end of a batch. */
    method SubBatch(r: nat, rem: nat, env: seq<seq<Action>>) returns (left: nat, rest: seq<seq<Action>>)
      requires Valid() && r in world.rel && world.rel[r] == Busy(rem, 0, FetchSub)
      requires forall acts :: acts in env ==> NotBy(acts, Thread(r))
      modifies this
      ensures Valid() && old(trace) <= trace && r in world.rel && rxLock == left && rem > 0
      ensures world.rel[r] == if left == 0 then NoCall else Busy(left, left, ReadHead)
      ensures rest == if env == [] then [] else env[1..]
      ensures env == [] ==> rxLock < old(rxLock)
    {
      hide Inv, Exec, NotBy, Next, OpsBy, Enabled, SharedOf, OpBy;
      rest := Meanwhile(env, Thread(r));
      ThreadFacts(world, r);
      SubSteps(world, r);
      var actual := rxLock;
      rxLock := actual - rem;
      left := actual - rem;
      Record(ReleaseStep(r));
    }

    /**
     * `release_one`, whatever the others do meanwhile.  A call that finds `rx_lock` taken only
     * counts itself in.  One that takes it returns when every release counted so far has become
     * a permit in a task's hands, assigned to one, or there to take; it gives up only when the
     * schedule ends while a push is half done.
     */
    method ReleaseOne(r: nat, env: seq<seq<Action>>) returns (done: bool)
      requires Valid() && r in world.rel && world.rel[r] == NoCall
      requires forall acts :: acts in env ==> NotBy(acts, Thread(r))
      modifies this
      ensures Valid() && old(trace) <= trace && r in world.rel
      ensures old(rxLock) > 0 ==> done && rxLock == old(rxLock) + 1 && trace == old(trace) + [ReleaseCall(r)]
      ensures done ==> world.rel[r] == NoCall
      ensures done && old(rxLock) == 0 ==>
                && rxLock == 0
                && world.initial + world.released == Available(world) + world.obtained + |AssignedSet(world)|
      ensures !done ==> world.rel[r].Busy? && HalfPush(world)
    {
      hide Inv, Exec, NotBy, Next, OpsBy, Enabled, SharedOf, OpBy, HalfPush, Available, AssignedSet;
      EnterSteps(world, r);
      var prev := rxLock;
      rxLock := prev + 1;
      Record(ReleaseCall(r));
      if prev != 0 { return true; }
      var rem, rest := 1, env;
      while rem > 0
        invariant Valid() && old(trace) <= trace && r in world.rel
        invariant world.rel[r] == (if rem == 0 then NoCall else Busy(rem, rem, ReadHead)) && (rem == 0 ==> rxLock == 0)
        invariant forall acts :: acts in rest ==> NotBy(acts, Thread(r))
        decreases |rest|, rxLock
      {
        done, rest := ReleaseN(r, rem, rem, rest);
        if !done { return; }
        rem, rest := SubBatch(r, rem, rest);
      }
      WordShared(world);
      AllDelivered(world);
      done := true;
    }

    lemma AllDelivered(s: State)
      requires Inv(s) && s.rx == 0
      ensures s.initial + s.released == Available(s) + s.obtained + |AssignedSet(s)|
    {
      hide Links, Placed, Polls, Orders, OneHolder;
    }
  }
}
