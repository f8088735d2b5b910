/**
 * The inductive invariant of the semaphore machine.  The live part of the intrusive queue is
 * the window `hist[front..]`, from the node `head` points to up to the tail.
 */
module SemaphoreInvariant {
  import opened Wrappers
  import opened SemaphoreMachine

  /** The waiters among a sequence of nodes, in order. */
  function Waiters(xs: seq<Ref>): seq<nat> {
    if xs == [] then []
    else Waiters(xs[..|xs| - 1]) + (if xs[|xs| - 1].Node? then [xs[|xs| - 1].w] else [])
  }

  function Available(s: State): nat {
    if s.word.Num? then s.word.permits else 0
  }

  function AssignedSet(s: State): set<nat> {
    set w | w in s.waiters && s.waiters[w].state == Assigned
  }

  /** The control state of the call that holds `rx_lock`. */
  function HolderPc(s: State): Option<RelPc> {
    if s.holder.Some? && s.holder.value in s.rel && s.rel[s.holder.value].Busy?
    then Some(s.rel[s.holder.value].pc) else None
  }

  /** The waiter that `pop` has returned and `notify` has yet to settle. */
  function InHand(s: State): Option<nat> {
    if HolderPc(s).Some? && HolderPc(s).value.Notify? then Some(HolderPc(s).value.w) else None
  }

  /** The link that `push_stub` has yet to store: the predecessor of the stub and the stub's position. */
  function StubLink(s: State): Option<(Ref, nat)> {
    if HolderPc(s).Some? && HolderPc(s).value.LinkStub?
    then Some((HolderPc(s).value.prev, HolderPc(s).value.pos)) else None
  }

  /** Releases counted in `rx_lock` that no waiter and no permit count has received yet. */
  function Undelivered(s: State): int {
    if HolderPc(s).Some? then s.rx - s.rel[s.holder.value].batch + s.rel[s.holder.value].n else s.rx
  }

  // ----- the queue -----

  predicate InWindow(s: State, i: int) { s.front <= i < |s.hist| }

  /** The call that pushed `x` at position `i` has yet to store the `next` of its predecessor. */
  predicate Linking(s: State, x: Ref, prev: Ref, i: nat) {
    match x
    case Node(w) => w in s.waiters && s.waiters[w].pc == LinkPrev(prev, i)
    case Stub => StubLink(s) == Some((prev, i))
  }

  predicate LinkOk(s: State, i: nat)
    requires i + 1 < |s.hist|
  {
    var x, y := s.hist[i], s.hist[i + 1];
    NextOf(s, x) == if Linking(s, y, x, i + 1) then None else Some(y)
  }

  ghost predicate Links(s: State) {
    forall i: nat :: s.front <= i && i + 1 < |s.hist| ==> LinkOk(s, i)
  }

  ghost predicate Placed(s: State) {
    && (forall i: nat :: s.front <= i < |s.hist| ==> PlaceOk(s, i))
    && (s.stubPos.Some? ==> InWindow(s, s.stubPos.value) && s.hist[s.stubPos.value] == Stub)
  }

  predicate PlaceOk(s: State, i: nat)
    requires i < |s.hist|
  {
    match s.hist[i]
    case Stub => s.stubPos == Some(i)
    case Node(w) => w in s.waiters && s.waiters[w].loc == InQueue(i)
  }

  predicate Ends(s: State) {
    && s.front < |s.hist|
    && s.head == s.hist[s.front]
    && NextOf(s, s.hist[|s.hist| - 1]) == None
    && (match s.word
        case Num(k) => k >= 1 && s.front == |s.hist| - 1 && s.head == Stub
        case Tail(t) => t == s.hist[|s.hist| - 1])
  }

  // ----- the waiters -----

  /** What the word can have held when a call read it. */
  predicate Seen(curr: Word) { curr != Num(0) }

  predicate PollOk(s: State, w: nat)
    requires w in s.waiters
  {
    var x := s.waiters[w];
    && (x.pc != Out ==> !x.waiting)
    && (x.loc.InQueue? ==> InWindow(s, x.loc.pos) && s.hist[x.loc.pos] == Node(w))
    && (x.loc.Popped? ==> InHand(s) == Some(w))
    && (match x.loc
        case Away => x.state == Idle || x.state == Assigned
        case Pushing =>
          x.state == QueuedWaiting && (x.pc.ClearNext? || x.pc.Revert? || (x.pc.PollCas? && x.pc.strong))
        case _ => x.state == Queued || x.state == QueuedWaiting)
    && (match x.pc
        case Out =>
          if x.waiting then x.state == QueuedWaiting || x.state == Assigned
          else x.state == Idle || x.state == Queued
        case PollCas(curr, strong, _) =>
          && Seen(curr)
          && (curr.Tail? ==> strong)
          && (if strong then x.loc == Pushing && NextOf(s, Node(w)) == None else x.state == Idle || x.state == Queued)
        case LoadNodeState(curr) => Seen(curr) && (x.state == Idle || x.state == Queued)
        case CasNodeState(curr, seen) =>
          Seen(curr) && (x.state == Idle || x.state == Queued) && (seen == Idle || seen == Queued)
        case ClearNext(curr) => Seen(curr) && x.loc == Pushing
        case LinkPrev(prev, pos) =>
          && s.front < pos < |s.hist| && x.loc == InQueue(pos) && x.state == QueuedWaiting
          && s.hist[pos - 1] == prev
        case Revert => x.loc == Pushing)
  }

  ghost predicate Polls(s: State) {
    forall w :: w in s.waiters ==> PollOk(s, w)
  }

  // ----- the releasing threads -----

  /** What the holder of `rx_lock` knows at each point of `release_one`. */
  predicate HolderOk(s: State, pc: RelPc)
    requires Ends(s)
  {
    match pc
    case ReadHead => true
    case LoadNext(h) => h == s.head
    case LoadWord => s.head == Stub
    case AddPermits(curr) => s.head == Stub && Seen(curr) && (curr.Tail? ==> curr.tail == Stub)
    case SkipStub(nx) => s.head == Stub && NextOf(s, Stub) == Some(nx)
    case LoadNext2(h) => h == s.head && h != Stub
    case TakeHead(h, nx) => h == s.head && h != Stub && NextOf(s, h) == Some(nx)
    case LoadTail(h) => h == s.head && h != Stub
    case ClearStub(h) => h == s.head && h != Stub && s.stubPos == None
    case SwapTail(h) => h == s.head && h != Stub && s.stubPos == None && NextOf(s, Stub) == None
    case LinkStub(h, prev, pos) =>
      && h == s.head && h != Stub
      && s.front < pos < |s.hist| && s.stubPos == Some(pos) && s.hist[pos - 1] == prev
    case Recheck(h) => h == s.head && h != Stub
    case Notify(w, seen) =>
      w in s.waiters && s.waiters[w].loc == Popped && (seen == Queued || seen == QueuedWaiting)
    case FetchSub => true
  }

  predicate Holds(s: State)
    requires Ends(s)
  {
    if s.rx == 0 then s.holder == None
    else
      && s.holder.Some? && s.holder.value in s.rel && s.rel[s.holder.value].Busy?
      && var Busy(batch, n, pc) := s.rel[s.holder.value];
      && 1 <= batch <= s.rx && n <= batch
      && (n == 0 <==> pc == FetchSub)
      && HolderOk(s, pc)
  }

  ghost predicate OneHolder(s: State) {
    forall r :: r in s.rel && s.rel[r].Busy? ==> s.holder == Some(r)
  }

  // ----- counting and ordering -----

  predicate Counts(s: State) {
    s.initial + s.released == Available(s) + s.obtained + |AssignedSet(s)| + Undelivered(s)
  }

  predicate Orders(s: State) {
    && s.pushed == Waiters(s.hist)
    && s.front <= |s.hist|
    && s.served == Waiters(s.hist[..s.front])
  }

  /** The part of the invariant about memory and control; `Counts` and `Orders` rest on it. */
  ghost predicate Core(s: State) {
    && !s.fault
    && Ends(s) && Links(s) && Placed(s)
    && Polls(s)
    && OneHolder(s) && Holds(s)
  }

  ghost predicate Inv(s: State) {
    Core(s) && Counts(s) && Orders(s)
  }
}
