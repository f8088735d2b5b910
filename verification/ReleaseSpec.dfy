/** What releasing `n` permits does to a queue of waiters, told on the states of its nodes. */
module ReleaseSpec {
  import opened Wrappers
  import opened SemaphoreMachine
  import opened SemaphoreRuns
  import opened SemaphoreTheorems

  /** How many nodes leave the queue: cancelled ones go without using up a permit. */
  function Served(sts: seq<NodeState>, n: nat): (k: nat)
    ensures k <= |sts|
  {
    if n == 0 || sts == [] then 0
    else 1 + Served(sts[1..], if sts[0] == QueuedWaiting then n - 1 else n)
  }

  /** How many permits find no waiter. */
  function Left(sts: seq<NodeState>, n: nat): nat {
    if n == 0 || sts == [] then n
    else Left(sts[1..], if sts[0] == QueuedWaiting then n - 1 else n)
  }

  /** When `k` nodes have left the queue, `n` permits are still to be released. */
  predicate Remaining(sts: seq<NodeState>, permits: nat, k: nat, n: nat) {
    k <= |sts| && Served(sts, permits) == k + Served(sts[k..], n) && Left(sts, permits) == Left(sts[k..], n)
  }

  lemma RemainingAtFirst(sts: seq<NodeState>, permits: nat)
    ensures Remaining(sts, permits, 0, permits)
  {
    assert sts[0..] == sts;
  }

  lemma RemainingNext(sts: seq<NodeState>, permits: nat, k: nat, n: nat)
    requires Remaining(sts, permits, k, n) && k < |sts| && n > 0
    ensures Remaining(sts, permits, k + 1, if sts[k] == QueuedWaiting then n - 1 else n)
  {
    assert sts[k..][0] == sts[k] && sts[k..][1..] == sts[k + 1..];
  }

  lemma RemainingAtLast(sts: seq<NodeState>, permits: nat, k: nat, n: nat)
    requires Remaining(sts, permits, k, n) && (n == 0 || k == |sts|)
    ensures Served(sts, permits) == k && Left(sts, permits) == n
  {
  }

  /** The state of a node that has left the queue. */
  function Settled(st: NodeState): NodeState {
    if st == QueuedWaiting then Assigned else Idle
  }

  function CountWaiting(sts: seq<NodeState>): nat {
    if sts == [] then 0 else (if sts[0] == QueuedWaiting then 1 else 0) + CountWaiting(sts[1..])
  }

  /** Each permit goes to one waiter or is left over, only an emptied queue leaves any, and nobody is popped in vain. */
  lemma {:induction false} ReleaseExact(sts: seq<NodeState>, n: nat)
    ensures CountWaiting(sts[..Served(sts, n)]) + Left(sts, n) == n
    ensures Left(sts, n) > 0 ==> Served(sts, n) == |sts|
    ensures Left(sts, n) == 0 && n > 0 ==> Served(sts, n) > 0 && sts[Served(sts, n) - 1] == QueuedWaiting
  {
    if n > 0 && sts != [] {
      var m := if sts[0] == QueuedWaiting then n - 1 else n;
      ReleaseExact(sts[1..], m);
      assert sts[..Served(sts, n)][1..] == sts[1..][..Served(sts[1..], m)];
    }
  }

  /** How many permits are left over: those that outnumber the waiting nodes. */
  lemma {:induction false} LeftExact(sts: seq<NodeState>, n: nat)
    ensures Left(sts, n) == if n > CountWaiting(sts) then n - CountWaiting(sts) else 0
  {
    if n > 0 && sts != [] { LeftExact(sts[1..], if sts[0] == QueuedWaiting then n - 1 else n); }
  }

  lemma {:induction false} CountWithout(sts: seq<NodeState>, i: nat)
    requires i < |sts| && sts[i] == QueuedWaiting
    ensures CountWaiting(sts[i := Queued]) == CountWaiting(sts) - 1
  {
    if i > 0 {
      CountWithout(sts[1..], i - 1);
      assert sts[i := Queued][1..] == sts[1..][i - 1 := Queued];
    } else {
      assert sts[0 := Queued][1..] == sts[1..];
    }
  }

  /** A node cancelled in the queue gets no permit; the one it would have had goes to another waiter or is left. */
  lemma CancelPassesOn(sts: seq<NodeState>, i: nat, n: nat)
    requires i < |sts| && sts[i] == QueuedWaiting
    ensures var sts' := sts[i := Queued];
            && Settled(sts'[i]) == Idle
            && Left(sts', n) == (if n >= CountWaiting(sts) then Left(sts, n) + 1 else Left(sts, n))
            && CountWaiting(sts'[..Served(sts', n)]) == n - Left(sts', n)
  {
    CountWithout(sts, i);
    LeftExact(sts, n);
    LeftExact(sts[i := Queued], n);
    ReleaseExact(sts[i := Queued], n);
  }

  /** Releasing in two batches is releasing once. */
  lemma {:induction false} BatchesAdd(sts: seq<NodeState>, a: nat, b: nat)
    ensures var rest := sts[Served(sts, a)..];
            && Served(sts, a + b) == Served(sts, a) + Served(rest, b)
            && Left(sts, a + b) == Left(sts, a) + Left(rest, b)
  {
    if a == 0 {
      assert sts[0..] == sts;
    } else if sts != [] {
      var m := if sts[0] == QueuedWaiting then a - 1 else a;
      BatchesAdd(sts[1..], m, b);
      assert sts[Served(sts, a)..] == sts[1..][Served(sts[1..], m)..];
    }
  }

  /** The operations of the FIFO semaphore that a release stands for. */
  function ReleaseOps(queue: seq<nat>, sts: seq<NodeState>, n: nat): seq<Op>
    requires |queue| == |sts|
  {
    if n == 0 then []
    else if sts == [] then [Give(n)]
    else [Pop(queue[0])] + ReleaseOps(queue[1..], sts[1..], if sts[0] == QueuedWaiting then n - 1 else n)
  }

  /** They are enabled in turn, and lead where `Served` and `Left` say. */
  lemma {:induction false} ReleaseIsFifo(queue: seq<nat>, sts: seq<NodeState>, n: nat, permits: nat)
    requires |queue| == |sts| && (queue != [] ==> permits == 0)
    ensures FifoRun(Fifo(permits, queue), ReleaseOps(queue, sts, n)) ==
            Some(Fifo(permits + Left(sts, n), queue[Served(sts, n)..]))
  {
    var ops := ReleaseOps(queue, sts, n);
    if n > 0 && sts == [] {
      assert ops[1..] == [];
    } else if n > 0 {
      var m := if sts[0] == QueuedWaiting then n - 1 else n;
      ReleaseIsFifo(queue[1..], sts[1..], m, permits);
      assert ops[1..] == ReleaseOps(queue[1..], sts[1..], m);
      assert queue[1..][Served(sts[1..], m)..] == queue[Served(sts, n)..];
    }
  }
}
