/**
 * The semaphore's own code on heap nodes, run without interruption.  A compare-and-swap then
 * succeeds at once, so that the retry loops of `poll_permit` and `to_queued_waiting` run once,
 * and the three "inconsistent" branches of `pop` are shown to be dead.
 */
module SemaphoreCode {
  import opened Wrappers
  import opened SemaphoreMachine
  import opened ReleaseSpec

  class WaiterNode {
    var state: NodeState
    var next: WaiterNode?

    constructor ()
      ensures state == Idle && next == null
    {
      state, next := Idle, null;
    }

    /** Compare-and-swap on the state: the value seen is the one expected exactly if it was replaced. */
    method CompareExchange(expected: NodeState, desired: NodeState) returns (seen: NodeState)
      modifies `state
      ensures seen == old(state) && state == if seen == expected then desired else seen
    {
      seen := state;
      if seen == expected { state := desired; }
    }

    /** `acquire`: takes the permit assigned to this node. */
    method Acquire() returns (ok: bool)
      modifies `state
      ensures ok == (old(state) == Assigned) && state == if ok then Idle else old(state)
    {
      var seen := CompareExchange(Assigned, Idle);
      ok := seen == Assigned;
    }

    /** A cancelled request stays in the queue. */
    method Cancel()
      requires state == QueuedWaiting
      modifies `state
      ensures state == Queued
    {
      state := Queued;
    }

    /** `to_queued_waiting`: true if the node must now be pushed. */
    method ToQueuedWaiting() returns (push: bool)
      requires state == Idle || state == Queued
      modifies this
      ensures state == QueuedWaiting && push == (old(state) == Idle)
      ensures next == if push then null else old(next)
    {
      var curr := state;
      assert curr == Idle || curr == Queued;
      var seen := CompareExchange(curr, QueuedWaiting);
      assert seen == curr;
      if curr == Queued { return false; }
      next := null;
      return true;
    }

    /** `notify`: a waiting node is assigned the permit, a cancelled one becomes idle. */
    method Notify() returns (accepted: bool)
      requires state == Queued || state == QueuedWaiting
      modifies `state
      ensures accepted == (old(state) == QueuedWaiting) && state == Settled(old(state))
    {
      var curr := QueuedWaiting;
      while true
        invariant state == old(state) && (curr == QueuedWaiting || curr == state)
        decreases curr != state
      {
        assert curr == Queued || curr == QueuedWaiting;
        var seen := CompareExchange(curr, Settled(curr));
        if seen == curr { return curr == QueuedWaiting; }
        curr := seen;
      }
    }
  }

  /** The word: a permit count or the tail of the queue. */
  datatype SemState = Permits(n: nat) | Pointer(tail: WaiterNode)

  datatype Poll = Ready | NotReady | Unregistered

  class Semaphore {
    var state: SemState
    var head: WaiterNode
    var rxLock: nat
    const stub: WaiterNode
    /** The waiters in the list, first to last. */
    ghost var queue: seq<WaiterNode>

    /** The list as linked: the stub is in it only as its head. */
    ghost function Chain(): seq<WaiterNode>
      reads this
    {
      if head == stub then [stub] + queue else queue
    }

    ghost predicate Linked(c: seq<WaiterNode>)
      reads c
    {
      && c != []
      && (forall i, j :: 0 <= i < j < |c| ==> c[i] != c[j])
      && (forall i :: 0 <= i < |c| - 1 ==> c[i].next == c[i + 1])
      && c[|c| - 1].next == null
    }

    ghost predicate Valid()
      reads this, stub, queue
    {
      && stub !in queue
      && Chain() != [] && head == Chain()[0] && Linked(Chain())
      && (match state
          case Permits(n) => n >= 1 && Chain() == [stub]
          case Pointer(t) => t == Chain()[|Chain()| - 1])
      && forall w :: w in queue ==> w.state == Queued || w.state == QueuedWaiting
    }

    /** The permits to take now. */
    ghost function Available(): nat
      reads this
    {
      if state.Permits? then state.n else 0
    }

    constructor (permits: nat)
      requires permits > 0
      ensures Valid() && Available() == permits && queue == [] && rxLock == 0 && fresh(stub)
    {
      var node := new WaiterNode();
      stub, head, state, rxLock, queue := node, node, Permits(permits), 0, [];
    }

    /** The semaphore's own memory and the nodes in the queue. */
    ghost function Footprint(): set<object>
      reads this
    {
      {this, stub} + set w | w in queue
    }

    method CompareExchange(expected: SemState, desired: SemState) returns (seen: SemState)
      modifies `state
      ensures seen == old(state) && state == if seen == expected then desired else seen
    {
      seen := state;
      if seen == expected { state := desired; }
    }

    /**
     * `poll_permit` with the waiter of a client that is not waiting: a permit is taken if there
     * is one, and else the waiter joins the end of the queue, or its old place is revived.
     */
    method PollPermit(waiter: WaiterNode?) returns (r: Poll)
      requires Valid() && waiter != stub
      requires waiter != null ==> if waiter in queue then waiter.state == Queued else waiter.state == Idle
      modifies Footprint(), waiter
      ensures Valid() && head == old(head) && rxLock == old(rxLock)
      ensures r == Ready <==> old(Available()) > 0
      ensures r == Unregistered <==> old(Available()) == 0 && waiter == null
      ensures Available() == if r == Ready then old(Available()) - 1 else old(Available())
      ensures queue == if r == NotReady && waiter !in old(queue) then old(queue) + [waiter] else old(queue)
      ensures r == NotReady ==> waiter.state == QueuedWaiting
      ensures r != NotReady && waiter != null ==> waiter.state == old(waiter.state)
      ensures forall w :: w in old(queue) && w != waiter ==> w.state == old(w.state)
    {
      if state.Permits? {
        TakePermit();
        return Ready;
      }
      if waiter == null { return Unregistered; }
      Enlist(waiter);
      return NotReady;
    }

    /** `poll_permit` when there is a permit. */
    method TakePermit()
      requires Valid() && state.Permits?
      modifies `state
      ensures Valid() && Available() == old(Available()) - 1
    {
      var curr := state;
      var seen := CompareExchange(curr, if curr.n == 1 then Pointer(stub) else Permits(curr.n - 1));
      assert seen == curr;
    }

    /** `poll_permit` when there is none. */
    method Enlist(waiter: WaiterNode)
      requires Valid() && state.Pointer? && waiter != stub
      requires if waiter in queue then waiter.state == Queued else waiter.state == Idle
      modifies `state, `queue, waiter, {state.tail}`next
      ensures Valid() && state.Pointer? && waiter.state == QueuedWaiting
      ensures queue == if waiter in old(queue) then old(queue) else old(queue) + [waiter]
    {
      var curr := state;
      ghost var c := Chain();
      assert waiter in queue ==> waiter in c;
      assert waiter !in queue ==> waiter !in c;
      var push := waiter.ToQueuedWaiting();
      assert Chain() == c;
      assert Linked(c) by {
        forall i | 0 <= i < |c| ensures c[i].next == old(c[i].next) { assert c[i] in c; }
      }
      if push {
        var seen := CompareExchange(curr, Pointer(waiter));
        assert Chain() == c && Linked(c);
        assert seen == curr;
        FinishPush(curr.tail, waiter);
      }
    }

    /** The store that links a node whose compare-and-swap has made it the tail. */
    method FinishPush(prev: WaiterNode, node: WaiterNode)
      requires stub !in queue && node !in queue && node != stub && node.next == null && node.state == QueuedWaiting
      requires Chain() != [] && head == Chain()[0] && Linked(Chain()) && prev == Chain()[|Chain()| - 1]
      requires state == Pointer(node) && forall w :: w in queue ==> w.state == Queued || w.state == QueuedWaiting
      modifies `queue, {prev}`next
      ensures Valid() && queue == old(queue) + [node]
    {
      ghost var c := Chain();
      prev.next := node;
      queue := queue + [node];
      assert Chain() == c + [node];
    }

    /** `push_stub`: the stub goes behind the only waiter. */
    method PushStub()
      requires stub !in queue && head != stub && queue == [head] && head.next == null && state == Pointer(head)
      modifies `state, stub`next, {head}`next
      ensures state == Pointer(stub) && stub.next == null && head.next == stub
    {
      stub.next := null;
      var prev := state;
      state := Pointer(stub);
      assert prev.Pointer? && prev.tail != stub;
      prev.tail.next := stub;
    }

    /**
     * `pop`: the first waiter, or none and `rem` permits more to take.  Run without
     * interruption, it never finds the list inconsistent.
     */
    method Pop(rem: nat) returns (w: WaiterNode?)
      requires Valid() && rem > 0
      modifies `state, `head, `queue, stub`next, queue`next
      ensures Valid()
      ensures old(queue) == [] ==> w == null && queue == [] && Available() == old(Available()) + rem
      ensures old(queue) != [] ==>
                w == old(queue)[0] && queue == old(queue)[1..] && Available() == 0 == old(Available())
    {
      ghost var c := Chain();
      var h := head;
      var nx := h.next;
      assert c[0].next == if |c| > 1 then c[1] else null;
      if h == stub {
        if nx == null {
          var curr := state;
          assert curr.Permits? || curr.tail == stub;
          var seen := CompareExchange(curr, Permits(if curr.Permits? then curr.n + rem else rem));
          assert seen == curr;
          return null;
        }
        head := nx;
        assert Chain() == c[1..];
        LinkedTail(c);
        c := c[1..];
        h := nx;
        nx := h.next;
        assert c[0].next == if |c| > 1 then c[1] else null;
      }
      if nx != null {
        w := TakeHead(nx);
        return;
      }
      assert |c| == 1;
      assert state == Pointer(h);
      PushStub();
      nx := h.next;
      assert nx == stub;
      head := nx;
      queue := [];
      assert Chain() == [stub];
      return h;
    }

    lemma LinkedTail(c: seq<WaiterNode>)
      requires Linked(c) && |c| > 1
      ensures Linked(c[1..]) && c[0].next == c[1] && c[1..][0] == c[1]
    {
      var d := c[1..];
      forall i | 0 <= i < |d| - 1 ensures d[i].next == d[i + 1] { assert d[i] == c[i + 1]; }
    }

    /** The head leaves the list. */
    method TakeHead(nx: WaiterNode) returns (w: WaiterNode)
      requires Valid() && head != stub && |queue| > 1 && nx == head.next
      modifies `head, `queue
      ensures Valid() && w == old(head) && queue == old(queue)[1..]
    {
      ghost var c := Chain();
      LinkedTail(c);
      w := head;
      head := nx;
      queue := queue[1..];
      assert Chain() == c[1..];
    }

    /** Of the waiters `q`, in states `sts` when `avail` permits were there to take, `n` permits have been released. */
    ghost predicate Delivered(q: seq<WaiterNode>, sts: seq<NodeState>, avail: nat, n: nat)
      requires |q| == |sts|
      reads this, q
    {
      && queue == q[Served(sts, n)..]
      && Available() == avail + Left(sts, n)
      && forall i :: 0 <= i < |q| ==> q[i].state == if i < Served(sts, n) then Settled(sts[i]) else sts[i]
    }

    /** The first `k` of the waiters `q`, in states `sts`, have left the queue. */
    ghost predicate Popped(q: seq<WaiterNode>, sts: seq<NodeState>, k: nat)
      requires |q| == |sts|
      reads this, q
    {
      && k <= |q| && queue == q[k..]
      && forall i :: 0 <= i < |q| ==> q[i].state == if i < k then Settled(sts[i]) else sts[i]
    }

    /** `release_n`: each permit goes to the first waiter still waiting, and what is left is there to take. */
    method ReleaseN(permits: nat)
      requires Valid()
      modifies `state, `head, `queue, stub`next, queue
      ensures Valid() && Delivered(old(queue), old(States(queue)), old(Available()), permits)
    {
      hide Served, Left, Remaining, Valid, Linked, Settled;
      var n := permits;
      ghost var q, sts, avail := queue, States(queue), Available();
      ghost var k: nat := 0;
      Distinct();
      RemainingAtFirst(sts, permits);
      while n > 0
        invariant Valid() && Available() == avail && Popped(q, sts, k) && Remaining(sts, permits, k, n)
        decreases |q| - k
      {
        var w := Pop(n);
        if w == null {
          RemainingAtLast(sts, permits, k, n);
          return;
        }
        RemainingNext(sts, permits, k, n);
        var accepted := NotifyFirst(w, q, sts, k);
        if accepted { n := n - 1; }
        k := k + 1;
      }
      RemainingAtLast(sts, permits, k, n);
    }

    /** `notify` on the waiter just popped. */
    method NotifyFirst(w: WaiterNode, ghost q: seq<WaiterNode>, ghost sts: seq<NodeState>, ghost k: nat)
      returns (accepted: bool)
      requires Valid() && |q| == |sts| && k < |q| && w == q[k] && queue == q[k + 1..]
      requires forall i, j :: 0 <= i < j < |q| ==> q[i] != q[j]
      requires forall i :: 0 <= i < |q| ==> q[i].state == if i < k then Settled(sts[i]) else sts[i]
      requires sts[k] == Queued || sts[k] == QueuedWaiting
      modifies w`state
      ensures Valid() && Popped(q, sts, k + 1) && accepted == (sts[k] == QueuedWaiting)
    {
      assert forall v :: v in queue ==> v != w by {
        forall v | v in queue ensures v != w { var i :| 0 <= i < |queue| && queue[i] == v; assert v == q[k + 1 + i]; }
      }
      accepted := w.Notify();
    }

    /** No waiter is in the queue twice. */
    lemma Distinct()
      requires Valid()
      ensures forall i, j :: 0 <= i < j < |queue| ==> queue[i] != queue[j]
      ensures forall i :: 0 <= i < |queue| ==> queue[i].state == Queued || queue[i].state == QueuedWaiting
    {
      assert forall w :: w in queue ==> w.state == Queued || w.state == QueuedWaiting;
      var c, d := Chain(), |Chain()| - |queue|;
      forall i, j | 0 <= i < j < |queue| ensures queue[i] != queue[j] {
        assert c[d + i] == queue[i] && c[d + j] == queue[j];
      }
    }

    lemma NoneReleased()
      ensures Delivered(queue, States(queue), Available(), 0)
    {
    }

    /** `release_n` on top of `d` permits released before. */
    method ReleaseMore(rem: nat, ghost q: seq<WaiterNode>, ghost sts: seq<NodeState>, ghost avail: nat, ghost d: nat)
      requires Valid() && |q| == |sts| && Delivered(q, sts, avail, d)
      requires forall i, j :: 0 <= i < j < |q| ==> q[i] != q[j]
      modifies `state, `head, `queue, stub`next, q
      ensures Valid() && Delivered(q, sts, avail, d + rem)
    {
      hide Valid, Served, Left, Settled;
      BatchesAdd(sts, d, rem);
      ghost var k := Served(sts, d);
      ghost var rest := queue;
      assert States(queue) == sts[k..];
      ReleaseN(rem);
      assert Delivered(rest, sts[k..], avail + Left(sts, d), rem);
      assert queue == q[k..][Served(sts[k..], rem)..] == q[Served(sts, d + rem)..];
      forall i | 0 <= i < |q|
        ensures q[i].state == if i < Served(sts, d + rem) then Settled(sts[i]) else sts[i]
      {
        if k <= i {
          assert q[i] == rest[i - k] && sts[i] == sts[k..][i - k];
        } else {
          assert q[i] !in rest;
        }
      }
    }

    /** `rx_lock.fetch_add`. */
    method FetchAdd(n: nat, ghost q: seq<WaiterNode>, ghost sts: seq<NodeState>, ghost avail: nat, ghost d: nat)
      returns (seen: nat)
      requires Valid() && |q| == |sts| && Delivered(q, sts, avail, d)
      modifies `rxLock
      ensures Valid() && Delivered(q, sts, avail, d)
      ensures seen == old(rxLock) && rxLock == seen + n
    {
      seen := rxLock;
      rxLock := seen + n;
    }

    /** `rx_lock.fetch_sub`. */
    method FetchSub(n: nat, ghost q: seq<WaiterNode>, ghost sts: seq<NodeState>, ghost avail: nat, ghost d: nat)
      returns (seen: nat)
      requires Valid() && |q| == |sts| && Delivered(q, sts, avail, d) && n <= rxLock
      modifies `rxLock
      ensures Valid() && Delivered(q, sts, avail, d)
      ensures seen == old(rxLock) && rxLock == seen - n
    {
      seen := rxLock;
      rxLock := seen - n;
    }

    /**
     * `release_one`.  `arrivals` are the releases that other threads delegate while each batch
     * is being handed out.  A caller that finds `rx_lock` taken only counts itself in; the one
     * that takes it leaves when every permit, its own and the delegated ones, has been released.
     */
    method ReleaseOne(arrivals: seq<nat>)
      requires Valid() && forall a :: a in arrivals ==> a > 0
      modifies `state, `head, `queue, `rxLock, stub`next, queue
      ensures Valid()
      ensures rxLock == if old(rxLock) > 0 then old(rxLock) + 1 else 0
      ensures Delivered(old(queue), old(States(queue)), old(Available()),
                        if old(rxLock) > 0 then 0 else 1 + Sum(arrivals))
    {
      hide Valid, Delivered, Sum;
      ghost var q, sts, avail := queue, States(queue), Available();
      NoneReleased();
      Distinct();
      var prev := FetchAdd(1, q, sts, avail, 0);
      if prev != 0 { return; }
      var rem := 1;
      var i := 0;
      ghost var d: nat, total: nat := 0, 1;
      SumNothing(arrivals);
      while rem > 0
        invariant Valid() && i <= |arrivals| && rxLock == rem && (rem == 0 ==> i == |arrivals|)
        invariant total == 1 + Sum(arrivals[..i]) && d + rem == total
        invariant Delivered(q, sts, avail, d)
        decreases |arrivals| - i, rem
      {
        ReleaseMore(rem, q, sts, avail, d);
        d := d + rem;
        if i < |arrivals| {
          assert arrivals[i] in arrivals;
          var _ := FetchAdd(arrivals[i], q, sts, avail, d);
          SumNext(arrivals, i);
          total := total + arrivals[i];
          i := i + 1;
        }
        var actual := FetchSub(rem, q, sts, avail, d);
        rem := actual - rem;
      }
      assert arrivals[..|arrivals|] == arrivals;
    }
  }

  lemma SumNothing(xs: seq<nat>)
    ensures Sum(xs[..0]) == 0
  {
  }

  lemma SumNext(xs: seq<nat>, i: nat)
    requires i < |xs|
    ensures Sum(xs[..i + 1]) == Sum(xs[..i]) + xs[i]
  {
    assert xs[..i + 1] == xs[..i] + [xs[i]];
  }

  function Sum(xs: seq<nat>): nat {
    if xs == [] then 0 else Sum(xs[..|xs| - 1]) + xs[|xs| - 1]
  }

  ghost function States(queue: seq<WaiterNode>): (sts: seq<NodeState>)
    reads queue
    ensures |sts| == |queue|
  {
    seq(|queue|, i requires 0 <= i < |queue| reads queue => queue[i].state)
  }
}
