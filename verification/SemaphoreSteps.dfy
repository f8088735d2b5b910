module SemaphoreSteps {
  import opened Wrappers
  import opened SemaphoreMachine
  import opened SemaphoreInvariant

  // ----- the queue: what each kind of step does to it -----

  /** The update of a waiter that the queue cannot notice. */
  predicate WaiterKept(x: Waiter, y: Waiter) {
    x.loc.InQueue? || y.loc.InQueue? ==>
      x.loc == y.loc && (x.pc == y.pc || (!x.pc.LinkPrev? && !y.pc.LinkPrev?))
  }

  ghost predicate WaitersKept(s: State, s': State) {
    && s'.waiters.Keys == s.waiters.Keys
    && forall w :: w in s.waiters ==> WaiterKept(s.waiters[w], s'.waiters[w])
  }

  ghost predicate Queue(s: State) { Links(s) && Placed(s) }

  lemma QueueKept(s: State, s': State)
    requires Queue(s) && WaitersKept(s, s') && StubLink(s') == StubLink(s)
    requires s'.hist == s.hist && s'.front == s.front && s'.stubPos == s.stubPos && s'.next == s.next
    ensures Queue(s')
  {
    forall i: nat | s'.front <= i < |s'.hist| ensures PlaceOk(s', i) { assert PlaceOk(s, i); }
    forall i: nat | s'.front <= i && i + 1 < |s'.hist| ensures LinkOk(s', i) {
      assert LinkOk(s, i) && PlaceOk(s, i) && PlaceOk(s, i + 1);
    }
  }

  /** Is `x` outside the live part of the queue? */
  predicate Outside(s: State, x: Ref) {
    match x
    case Stub => s.stubPos == None
    case Node(w) => w in s.waiters && !s.waiters[w].loc.InQueue?
  }

  /** `next` of a node outside the queue is reset. */
  lemma QueueCleared(s: State, s': State, x: Ref)
    requires Ends(s) && Queue(s) && WaitersKept(s, s') && StubLink(s') == StubLink(s) && Outside(s, x)
    requires s'.hist == s.hist && s'.front == s.front && s'.stubPos == s.stubPos && s'.head == s.head
    requires s'.next == s.next[x := None] && s'.word == s.word
    ensures Queue(s') && Ends(s')
  {
    forall i: nat | s'.front <= i < |s'.hist| ensures PlaceOk(s', i) { assert PlaceOk(s, i); }
    forall i: nat | s'.front <= i && i + 1 < |s'.hist| ensures LinkOk(s', i) {
      assert LinkOk(s, i) && PlaceOk(s, i) && PlaceOk(s, i + 1);
    }
    assert PlaceOk(s, |s.hist| - 1);
  }

  /** `x`, outside the queue so far, becomes the tail; its predecessor is not linked to it yet. */
  lemma QueuePushed(s: State, s': State, x: Ref)
    requires Ends(s) && Queue(s) && Outside(s, x) && NextOf(s, x) == None && s.word.Tail?
    requires s'.hist == s.hist + [x] && s'.front == s.front && s'.next == s.next && s'.head == s.head
    requires s'.word == Tail(x)
    requires s'.waiters.Keys == s.waiters.Keys
    requires forall w :: w in s.waiters && Node(w) != x ==> s'.waiters[w] == s.waiters[w]
    requires x != Stub ==> StubLink(s') == StubLink(s) && s'.stubPos == s.stubPos
    requires x == Stub ==> s'.stubPos == Some(|s.hist|)
    requires x.Node? ==> s'.waiters[x.w].loc == InQueue(|s.hist|)
    requires Linking(s', x, s.word.tail, |s.hist|)
    ensures Queue(s') && Ends(s')
  {
    forall i: nat | s'.front <= i < |s'.hist| ensures PlaceOk(s', i) {
      if i < |s.hist| { assert PlaceOk(s, i); }
    }
    forall i: nat | s'.front <= i && i + 1 < |s'.hist| ensures LinkOk(s', i) {
      assert PlaceOk(s, i);
      if i + 1 < |s.hist| { assert LinkOk(s, i) && PlaceOk(s, i + 1); }
    }
  }

  /** The half-done push of `y` at position `pos` stores the `next` of its predecessor `x`. */
  lemma QueueLinked(s: State, s': State, x: Ref, y: Ref, pos: nat)
    requires Ends(s) && Queue(s) && s.front < pos < |s.hist| && s.hist[pos - 1] == x && s.hist[pos] == y
    requires Linking(s, y, x, pos) && !Linking(s', y, x, pos)
    requires s'.hist == s.hist && s'.front == s.front && s'.stubPos == s.stubPos && s'.head == s.head
    requires s'.next == s.next[x := Some(y)] && s'.word == s.word
    requires s'.waiters.Keys == s.waiters.Keys
    requires forall w :: w in s.waiters && Node(w) != y ==> s'.waiters[w] == s.waiters[w]
    requires y.Node? ==> s'.waiters[y.w].loc == s.waiters[y.w].loc
    requires y != Stub ==> StubLink(s') == StubLink(s)
    ensures Queue(s') && Ends(s')
    ensures NextOf(s, x) == None
    ensures s.head == x || NextOf(s', s.head) == NextOf(s, s.head)
  {
    assert PlaceOk(s, pos) && PlaceOk(s, pos - 1) && LinkOk(s, pos - 1);
    forall i: nat | s'.front <= i < |s'.hist| ensures PlaceOk(s', i) { assert PlaceOk(s, i); }
    forall i: nat | s'.front <= i && i + 1 < |s'.hist| ensures LinkOk(s', i) {
      assert LinkOk(s, i) && PlaceOk(s, i) && PlaceOk(s, i + 1);
    }
    assert PlaceOk(s, |s.hist| - 1);
  }

  /** The head, already linked to its successor `nx`, leaves the queue. */
  lemma QueueAdvanced(s: State, s': State, nx: Ref)
    requires Ends(s) && Queue(s) && NextOf(s, s.head) == Some(nx)
    requires s'.hist == s.hist && s'.front == s.front + 1 && s'.next == s.next && s'.word == s.word && s'.head == nx
    requires s'.stubPos == if s.head == Stub then None else s.stubPos
    requires s'.waiters.Keys == s.waiters.Keys && StubLink(s) == None && StubLink(s') == None
    requires forall w :: w in s.waiters && Node(w) != s.head ==> s'.waiters[w] == s.waiters[w]
    ensures Queue(s') && Ends(s')
    ensures s.front + 1 < |s.hist| && nx != s.head && !Linking(s, nx, s.head, s.front + 1)
  {
    assert PlaceOk(s, s.front);
    assert s.front + 1 < |s.hist| && LinkOk(s, s.front) && PlaceOk(s, s.front + 1);
    forall i: nat | s'.front <= i < |s'.hist| ensures PlaceOk(s', i) { assert PlaceOk(s, i); }
    forall i: nat | s'.front <= i && i + 1 < |s'.hist| ensures LinkOk(s', i) {
      assert LinkOk(s, i) && PlaceOk(s, i) && PlaceOk(s, i + 1);
    }
  }

  // ----- the waiters a step does not touch -----

  lemma PollsKept(s: State, s': State, t: Option<nat>)
    requires Polls(s) && (t.Some? && t.value in s'.waiters ==> PollOk(s', t.value))
    requires s.hist <= s'.hist && s'.front == s.front && s'.waiters.Keys == s.waiters.Keys
    requires forall v :: v in s.waiters && t != Some(v) ==> s'.waiters[v] == s.waiters[v]
    requires forall v :: v in s.waiters && t != Some(v) && s.waiters[v].loc == Pushing ==>
                           NextOf(s', Node(v)) == NextOf(s, Node(v))
    requires InHand(s') == InHand(s) || InHand(s) == None || InHand(s) == t
    ensures Polls(s')
  {
    forall v | v in s'.waiters ensures PollOk(s', v) {
      if t != Some(v) { assert PollOk(s, v); }
    }
  }

  lemma PollsAdvanced(s: State, s': State, t: Option<nat>)
    requires Ends(s) && Polls(s) && (t.Some? && t.value in s'.waiters ==> PollOk(s', t.value))
    requires s'.hist == s.hist && s'.front == s.front + 1 < |s.hist| && s'.waiters.Keys == s.waiters.Keys
    requires s.head == match t case None => Stub case Some(w) => Node(w)
    requires forall v :: v in s.waiters && t != Some(v) ==> s'.waiters[v] == s.waiters[v]
    requires s'.next == s.next && InHand(s) == None
    requires !Linking(s, s.hist[s.front + 1], s.head, s.front + 1)
    ensures Polls(s')
  {
    forall v | v in s'.waiters ensures PollOk(s', v) {
      if t != Some(v) { assert PollOk(s, v); }
    }
  }

  // ----- the lock holder during a step of another call -----

  lemma HoldsKept(s: State, s': State)
    requires Ends(s) && Ends(s') && Holds(s) && OneHolder(s)
    requires s'.rel == s.rel && s'.holder == s.holder && s'.rx == s.rx
    requires s'.head == s.head && s'.front == s.front && s'.stubPos == s.stubPos && s.hist <= s'.hist
    requires NextOf(s', s.head) == NextOf(s, s.head) || NextOf(s, s.head) == None
    requires s.stubPos == None ==> NextOf(s', Stub) == NextOf(s, Stub)
    requires forall v :: v in s.waiters && s.waiters[v].loc == Popped ==> v in s'.waiters && s'.waiters[v].loc == Popped
    ensures Holds(s') && OneHolder(s')
  {
  }

  // ----- poll_permit, acquire and cancellation -----

  /** A step of waiter `w` that touches its own record only. */
  lemma WaiterOnly(s: State, w: nat, y: Waiter)
    requires Core(s) && w in s.waiters && WaiterKept(s.waiters[w], y)
    requires PollOk(SetWaiter(s, w, y), w)
    requires s.waiters[w].loc.Popped? ==> y.loc.Popped?
    ensures Core(SetWaiter(s, w, y))
  {
    var s' := SetWaiter(s, w, y);
    QueueKept(s, s');
    PollsKept(s, s', Some(w));
    HoldsKept(s, s');
    hide Links, Placed, Polls, OneHolder, Holds;
  }

  lemma ClearNextCore(s: State, w: nat)
    requires Core(s) && w in s.waiters && s.waiters[w].pc.ClearNext?
    ensures Core(PollNext(s, w))
  {
    var s' := SetNext(SetWaiter(s, w, s.waiters[w].(pc := PollCas(s.waiters[w].pc.curr, true, true))), Node(w), None);
    assert PollOk(s, w);
    QueueCleared(s, s', Node(w));
    assert PlaceOk(s, s.front);
    PollsKept(s, s', Some(w));
    HoldsKept(s, s');
    hide Links, Placed, Polls, OneHolder, Holds, Ends;
  }

  lemma TakePermitCore(s: State, w: nat, k: nat, strong: bool)
    requires Core(s) && w in s.waiters && s.word == Num(k)
    requires s.waiters[w].pc.PollCas? && s.waiters[w].pc.strong == strong
    ensures k >= 1 && Core(TakePermit(s, w, k, strong))
  {
    assert PollOk(s, w);
    var s' := TakePermit(s, w, k, strong);
    QueueKept(s, s');
    PollsKept(s, s', Some(w));
    HoldsKept(s, s');
    hide Links, Placed, Polls, OneHolder, Holds;
  }

  lemma PushCore(s: State, w: nat, prev: Ref)
    requires Core(s) && w in s.waiters && s.word == Tail(prev)
    requires s.waiters[w].pc.PollCas? && s.waiters[w].pc.strong
    ensures Core(PushNode(s, w, prev))
  {
    var s' := PushNode(s, w, prev);
    assert PollOk(s, w);
    QueuePushed(s, s', Node(w));
    PollsKept(s, s', Some(w));
    HoldsKept(s, s');
    hide Links, Placed, Polls, OneHolder, Holds, Ends;
  }

  lemma LinkPrevCore(s: State, w: nat)
    requires Core(s) && w in s.waiters && s.waiters[w].pc.LinkPrev?
    ensures Core(PollNext(s, w))
  {
    var LinkPrev(prev, pos) := s.waiters[w].pc;
    var s' := SetNext(SetWaiter(s, w, s.waiters[w].(pc := Out, waiting := true)), prev, Some(Node(w)));
    assert PollOk(s, w);
    assert PlaceOk(s, pos - 1);
    QueueLinked(s, s', prev, Node(w), pos);
    PollsKept(s, s', Some(w));
    HoldsKept(s, s');
    hide Links, Placed, Polls, OneHolder, Holds, Ends;
  }

  lemma PollLocalCore(s: State, w: nat)
    requires Core(s) && w in s.waiters
    requires var pc := s.waiters[w].pc;
             pc.LoadNodeState? || pc.CasNodeState? || pc.Revert? || (pc.PollCas? && s.word != pc.curr)
    ensures Core(PollNext(s, w))
  {
    hide Links, Placed, Holds, OneHolder;
    assert PollOk(s, w);
    var y := PollNext(s, w).waiters[w];
    assert PollNext(s, w) == SetWaiter(s, w, y);
    WaiterOnly(s, w, y);
  }

  lemma PollStepCore(s: State, w: nat)
    requires Core(s) && w in s.waiters
    ensures Core(PollNext(s, w))
  {
    assert PollOk(s, w);
    match s.waiters[w].pc
    case Out =>
    case PollCas(curr, strong, _) =>
      if s.word != curr { PollLocalCore(s, w); }
      else if curr.Num? { TakePermitCore(s, w, curr.permits, strong); }
      else { PushCore(s, w, curr.tail); }
    case ClearNext(_) => ClearNextCore(s, w);
    case LinkPrev(_, _) => LinkPrevCore(s, w);
    case _ => PollLocalCore(s, w);
  }

  lemma PollCallCore(s: State, w: nat, reg: bool)
    requires Core(s) && Enabled(s, PollCall(w, reg))
    ensures Core(Next(s, PollCall(w, reg)))
  {
    assert PollOk(s, w);
    WaiterOnly(s, w, s.waiters[w].(pc := Decide(s.word, false, reg)));
  }

  lemma CancelCore(s: State, w: nat)
    requires Core(s) && Enabled(s, Cancel(w))
    ensures Core(Next(s, Cancel(w)))
  {
    assert PollOk(s, w);
    WaiterOnly(s, w, s.waiters[w].(state := Queued, waiting := false));
  }

  lemma AcquireCore(s: State, w: nat)
    requires Core(s) && Enabled(s, Acquire(w))
    ensures Core(Next(s, Acquire(w)))
  {
    hide Links, Placed, OneHolder, Holds, Ends;
    assert PollOk(s, w);
    if s.waiters[w].state == Assigned {
      var s' := SetWaiter(s, w, s.waiters[w].(state := Idle, waiting := false)).(obtained := s.obtained + 1);
      assert s' == Next(s, Acquire(w));
      AcquiredCore(s, w, s');
    }
  }

  lemma AcquiredCore(s: State, w: nat, s': State)
    requires Core(s) && w in s.waiters && s.waiters[w].state == Assigned && s.waiters[w].pc == Out && PollOk(s, w)
    requires s' == SetWaiter(s, w, s.waiters[w].(state := Idle, waiting := false)).(obtained := s.obtained + 1)
    ensures Core(s')
  {
    QueueKept(s, s');
    PollsKept(s, s', Some(w));
    HoldsKept(s, s');
    hide Links, Placed, Polls, OneHolder, Holds;
  }

  // ----- release_one -----

  /** A step of the lock holder that only moves its program counter. */
  lemma PcOnly(s: State, r: nat, pc: RelPc)
    requires Core(s) && r in s.rel && s.rel[r].Busy?
    requires HolderOk(s, pc) && pc != FetchSub && s.rel[r].pc != FetchSub
    requires !pc.LinkStub? && !s.rel[r].pc.LinkStub?
    requires s.rel[r].pc.Notify? || pc.Notify? ==> s.rel[r].pc.Notify? && pc.Notify? && pc.w == s.rel[r].pc.w
    ensures Core(SetRel(s, r, Busy(s.rel[r].batch, s.rel[r].n, pc)))
  {
    hide Links, Placed, Polls;
    var s' := SetRel(s, r, Busy(s.rel[r].batch, s.rel[r].n, pc));
    QueueKept(s, s');
    PollsKept(s, s', None);
  }

  lemma ReleaseCallCore(s: State, r: nat)
    requires Core(s) && Enabled(s, ReleaseCall(r))
    ensures Core(Next(s, ReleaseCall(r)))
  {
    hide Links, Placed, Polls;
    var s' := Next(s, ReleaseCall(r));
    QueueKept(s, s');
    PollsKept(s, s', None);
  }

  /** The steps of the lock holder that only read memory and choose the next operation. */
  predicate Reads(s: State, pc: RelPc) {
    match pc
    case AddPermits(curr) => s.word != curr
    case SkipStub(_) => false
    case TakeHead(_, _) => false
    case ClearStub(_) => false
    case SwapTail(_) => false
    case LinkStub(_, _, _) => false
    case Notify(_, _) => false
    case FetchSub => false
    case _ => true
  }

  /** The step only moves the program counter, to a place where what the holder knows is right. */
  predicate ReadStep(s: State, r: nat)
    requires r in s.rel && s.rel[r].Busy? && Ends(s)
  {
    var s' := ReleaseNext(s, r);
    && r in s'.rel && s'.rel[r].Busy? && s' == SetRel(s, r, Busy(s.rel[r].batch, s.rel[r].n, s'.rel[r].pc))
    && HolderOk(s, s'.rel[r].pc)
    && s'.rel[r].pc != FetchSub && !s'.rel[r].pc.LinkStub? && !s'.rel[r].pc.Notify?
  }

  /** The node that the head is linked to, if any, and where the stub may be. */
  lemma HeadFacts(s: State)
    requires Core(s)
    ensures NextOf(s, s.head) == None || (s.front + 1 < |s.hist| && NextOf(s, s.head) == Some(s.hist[s.front + 1]))
    ensures s.head == Stub ==> s.stubPos == Some(s.front)
    ensures s.front + 1 < |s.hist| && s.head == Stub ==> s.hist[s.front + 1] != Stub
    ensures s.word == Tail(Stub) ==> s.stubPos == Some(|s.hist| - 1)
    ensures s.word == Tail(s.head) ==> s.front + 1 == |s.hist|
  {
    assert PlaceOk(s, s.front) && PlaceOk(s, |s.hist| - 1);
    if s.front + 1 < |s.hist| { assert LinkOk(s, s.front) && PlaceOk(s, s.front + 1); }
  }

  lemma ReadHeadOk(s: State, r: nat)
    requires Core(s) && r in s.rel && s.rel[r].Busy? && Reads(s, s.rel[r].pc)
    requires var pc := s.rel[r].pc; pc.ReadHead? || pc.LoadWord? || pc.AddPermits?
    ensures ReadStep(s, r)
  {
    hide Polls, Links, Placed;
    HeadFacts(s);
    match s.rel[r].pc
    case ReadHead =>
    case LoadWord =>
    case AddPermits(_) =>
  }

  lemma ReadNextOk(s: State, r: nat)
    requires Core(s) && r in s.rel && s.rel[r].Busy? && Reads(s, s.rel[r].pc)
    requires var pc := s.rel[r].pc; pc.LoadNext? || pc.LoadNext2? || pc.Recheck?
    ensures ReadStep(s, r)
  {
    hide Polls, Links, Placed;
    HeadFacts(s);
    match s.rel[r].pc
    case LoadNext(_) =>
    case LoadNext2(_) =>
    case Recheck(_) =>
  }

  lemma ReadTailOk(s: State, r: nat)
    requires Core(s) && r in s.rel && s.rel[r].Busy? && s.rel[r].pc.LoadTail?
    ensures ReadStep(s, r)
  {
    hide Polls, Links;
    HeadFacts(s);
  }

  lemma ReadsOk(s: State, r: nat)
    requires Core(s) && r in s.rel && s.rel[r].Busy? && Reads(s, s.rel[r].pc)
    ensures ReadStep(s, r)
  {
    hide Core, ReadStep;
    var pc := s.rel[r].pc;
    if pc.ReadHead? || pc.LoadWord? || pc.AddPermits? { ReadHeadOk(s, r); }
    else if pc.LoadTail? { ReadTailOk(s, r); }
    else { ReadNextOk(s, r); }
  }

  lemma ReadsCore(s: State, r: nat)
    requires Core(s) && r in s.rel && s.rel[r].Busy? && Reads(s, s.rel[r].pc)
    ensures Core(ReleaseNext(s, r))
  {
    ReadsOk(s, r);
    PcOnly(s, r, ReleaseNext(s, r).rel[r].pc);
    hide Core;
  }

  lemma NotifyRetryCore(s: State, r: nat, w: nat)
    requires Core(s) && r in s.rel && s.rel[r].Busy? && s.rel[r].pc.Notify? && s.rel[r].pc.w == w
    requires w in s.waiters && s.waiters[w].state != s.rel[r].pc.seen
    ensures Core(ReleaseNext(s, r))
  {
    assert PollOk(s, w);
    PcOnly(s, r, Notify(w, s.waiters[w].state));
    assert ReleaseNext(s, r) == SetRel(s, r, Busy(s.rel[r].batch, s.rel[r].n, Notify(w, s.waiters[w].state)));
    hide Core;
  }

  lemma AddPermitsCore(s: State, r: nat)
    requires Core(s) && r in s.rel && s.rel[r].Busy? && s.rel[r].pc == AddPermits(s.word)
    ensures Core(ReleaseNext(s, r))
  {
    var s' := ReleaseNext(s, r);
    if s.stubPos.Some? { assert PlaceOk(s, s.stubPos.value); }
    assert PlaceOk(s, s.front) && PlaceOk(s, |s.hist| - 1);
    QueueKept(s, s');
    PollsKept(s, s', None);
    hide Links, Placed, Polls;
  }

  lemma SkipStubCore(s: State, r: nat)
    requires Core(s) && r in s.rel && s.rel[r].Busy? && s.rel[r].pc.SkipStub?
    ensures Core(ReleaseNext(s, r))
  {
    var s' := ReleaseNext(s, r);
    QueueAdvanced(s, s', s.rel[r].pc.nx);
    PollsAdvanced(s, s', None);
    hide Links, Placed, Polls;
  }

  lemma TakeHeadCore(s: State, r: nat)
    requires Core(s) && r in s.rel && s.rel[r].Busy? && s.rel[r].pc.TakeHead?
    ensures Core(ReleaseNext(s, r))
  {
    var s' := ReleaseNext(s, r);
    assert PlaceOk(s, s.front);
    var w := s.head.w;
    assert PollOk(s, w);
    QueueAdvanced(s, s', s.rel[r].pc.nx);
    PollsAdvanced(s, s', Some(w));
    hide Links, Placed, Polls;
  }

  lemma ClearStubCore(s: State, r: nat)
    requires Core(s) && r in s.rel && s.rel[r].Busy? && s.rel[r].pc.ClearStub?
    ensures Core(ReleaseNext(s, r))
  {
    var s' := ReleaseNext(s, r);
    QueueCleared(s, s', Stub);
    PollsKept(s, s', None);
    hide Links, Placed, Polls;
  }

  lemma SwapTailCore(s: State, r: nat)
    requires Core(s) && r in s.rel && s.rel[r].Busy? && s.rel[r].pc.SwapTail?
    ensures Core(ReleaseNext(s, r))
  {
    var s' := ReleaseNext(s, r);
    assert PlaceOk(s, |s.hist| - 1);
    QueuePushed(s, s', Stub);
    PollsKept(s, s', None);
    hide Links, Placed, Polls;
  }

  lemma LinkStubCore(s: State, r: nat)
    requires Core(s) && r in s.rel && s.rel[r].Busy? && s.rel[r].pc.LinkStub?
    ensures Core(ReleaseNext(s, r))
  {
    var s' := ReleaseNext(s, r);
    var LinkStub(h, prev, pos) := s.rel[r].pc;
    assert PlaceOk(s, pos - 1) && PlaceOk(s, pos);
    assert s.hist[pos] == Stub;
    QueueLinked(s, s', prev, Stub, pos);
    PollsKept(s, s', None);
    hide Links, Placed, Polls;
  }

  lemma AssignHolder(s: State, r: nat, w: nat)
    requires Core(s) && r in s.rel && s.rel[r].Busy? && s.rel[r].pc == Notify(w, QueuedWaiting)
    requires w in s.waiters && s.waiters[w].state == QueuedWaiting
    ensures var s' := Assign(s, r, w, s.rel[r].batch, s.rel[r].n);
            Ends(s') && OneHolder(s') && Holds(s') && PollOk(s', w) && !s'.fault
  {
    assert PollOk(s, w);
  }

  lemma NotifyWaitingCore(s: State, r: nat, w: nat)
    requires Core(s) && r in s.rel && s.rel[r].Busy? && s.rel[r].pc == Notify(w, QueuedWaiting)
    requires w in s.waiters && s.waiters[w].state == QueuedWaiting
    ensures Core(ReleaseNext(s, r))
  {
    AssignHolder(s, r, w);
    assert PollOk(s, w);
    var s' := Assign(s, r, w, s.rel[r].batch, s.rel[r].n);
    QueueKept(s, s');
    PollsKept(s, s', Some(w));
    assert ReleaseNext(s, r) == s';
    hide ReleaseNext, Links, Placed, Polls, Ends, Holds, OneHolder, PollOk;
  }

  lemma NotifyQueuedCore(s: State, r: nat, w: nat)
    requires Core(s) && r in s.rel && s.rel[r].Busy? && s.rel[r].pc == Notify(w, Queued)
    requires w in s.waiters && s.waiters[w].state == Queued
    ensures Core(ReleaseNext(s, r))
  {
    var s' := SetRel(SetWaiter(s, w, s.waiters[w].(state := Idle, loc := Away)), r,
                     Busy(s.rel[r].batch, s.rel[r].n, ReadHead));
    assert PollOk(s, w);
    assert ReleaseNext(s, r) == s';
    hide ReleaseNext;
    QueueKept(s, s');
    PollsKept(s, s', Some(w));
    hide Links, Placed, Polls;
  }

  lemma FetchSubCore(s: State, r: nat)
    requires Core(s) && r in s.rel && s.rel[r].Busy? && s.rel[r].pc == FetchSub
    ensures Core(ReleaseNext(s, r))
  {
    var s' := ReleaseNext(s, r);
    QueueKept(s, s');
    PollsKept(s, s', None);
    hide Links, Placed, Polls;
  }

  lemma ReleaseStepCore(s: State, r: nat)
    requires Core(s) && r in s.rel && s.rel[r].Busy?
    ensures Core(ReleaseNext(s, r))
  {
    match s.rel[r].pc
    case AddPermits(curr) => if s.word == curr { AddPermitsCore(s, r); } else { ReadsCore(s, r); }
    case SkipStub(_) => SkipStubCore(s, r);
    case TakeHead(_, _) => TakeHeadCore(s, r);
    case ClearStub(_) => ClearStubCore(s, r);
    case SwapTail(_) => SwapTailCore(s, r);
    case LinkStub(_, _, _) => LinkStubCore(s, r);
    case Notify(w, seen) =>
      if s.waiters[w].state != seen { NotifyRetryCore(s, r, w); }
      else if seen == QueuedWaiting { NotifyWaitingCore(s, r, w); }
      else { NotifyQueuedCore(s, r, w); }
    case FetchSub => FetchSubCore(s, r);
    case _ => ReadsCore(s, r);
  }

  lemma StepCore(s: State, a: Action)
    requires Core(s) && Enabled(s, a)
    ensures Core(Next(s, a))
  {
    match a
    case PollCall(w, reg) => PollCallCore(s, w, reg);
    case PollStep(w) => PollStepCore(s, w);
    case Acquire(w) => AcquireCore(s, w);
    case Cancel(w) => CancelCore(s, w);
    case ReleaseCall(r) => ReleaseCallCore(s, r);
    case ReleaseStep(r) => ReleaseStepCore(s, r);
  }
}
