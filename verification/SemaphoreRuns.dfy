/** What holds in every state that any number of waiters and releasing threads can reach. */
module SemaphoreRuns {
  import opened Wrappers
  import opened SemaphoreMachine
  import opened SemaphoreInvariant
  import opened SemaphoreSteps

  // ----- what a step does to the queue and to the permits -----

  datatype Op =
    | Quiet             // neither the queue nor the permits change
    | Take              // an available permit is handed to a polling task
    | Push(w: nat)      // a waiter joins the queue
    | Pop(w: nat)       // a waiter leaves the queue
    | Give(n: nat)      // n permits become available
    | StubIn | StubOut  // the stub joins or leaves the queue

  /** The effect of an action, told from the state before it. */
  function OpOf(s: State, a: Action): Op
    requires Enabled(s, a)
  {
    match a
    case PollStep(w) =>
      var pc := s.waiters[w].pc;
      if pc.PollCas? && s.word == pc.curr then (if s.word.Num? then Take else Push(w)) else Quiet
    case ReleaseStep(r) =>
      (match s.rel[r].pc
       case AddPermits(curr) => if s.word == curr then Give(s.rel[r].n) else Quiet
       case SkipStub(_) => StubOut
       case TakeHead(h, _) => if h.Node? then Pop(h.w) else Quiet
       case SwapTail(_) => StubIn
       case _ => Quiet)
    case _ => Quiet
  }

  /** What an operation does to the history of the queue and to the number of available permits. */
  predicate Effect(s: State, s': State, op: Op) {
    match op
    case Quiet =>
      s'.hist == s.hist && s'.front == s.front && s'.pushed == s.pushed && s'.served == s.served
      && Available(s') == Available(s)
    case Take =>
      s'.hist == s.hist && s'.front == s.front && s'.pushed == s.pushed && s'.served == s.served
      && Available(s') == Available(s) - 1
    case Push(w) =>
      s'.hist == s.hist + [Node(w)] && s'.front == s.front && s'.pushed == s.pushed + [w] && s'.served == s.served
      && Available(s') == Available(s) == 0
    case Pop(w) =>
      s'.hist == s.hist && s'.front == s.front + 1 && s'.pushed == s.pushed && s'.served == s.served + [w]
      && Available(s') == Available(s) == 0 && s.front < |s.hist| && s.hist[s.front] == Node(w)
    case Give(n) =>
      s'.hist == s.hist && s'.front == s.front && s'.pushed == s.pushed && s'.served == s.served
      && Available(s') == Available(s) + n
    case StubIn =>
      s'.hist == s.hist + [Stub] && s'.front == s.front && s'.pushed == s.pushed && s'.served == s.served
      && Available(s') == Available(s) == 0
    case StubOut =>
      s'.hist == s.hist && s'.front == s.front + 1 && s'.pushed == s.pushed && s'.served == s.served
      && Available(s') == Available(s) && s.front < |s.hist| && s.hist[s.front] == Stub
  }

  lemma PollEffect(s: State, w: nat)
    requires Enabled(s, PollStep(w)) && PollOk(s, w) && s.word != Num(0)
    ensures Effect(s, PollNext(s, w), OpOf(s, PollStep(w)))
  {
  }

  lemma ReleaseEffect(s: State, r: nat)
    requires Enabled(s, ReleaseStep(r)) && Ends(s) && Holds(s) && OneHolder(s)
    requires s.rel[r].pc.TakeHead? ==> s.head.Node? && s.head.w in s.waiters && s.word.Tail?
    requires s.rel[r].pc.SwapTail? ==> s.word != Tail(Stub)
    ensures Effect(s, ReleaseNext(s, r), OpOf(s, ReleaseStep(r)))
  {
    match s.rel[r].pc
    case ReadHead =>
    case LoadNext(_) =>
    case LoadWord =>
    case AddPermits(_) =>
    case SkipStub(_) =>
    case LoadNext2(_) =>
    case TakeHead(_, _) =>
    case LoadTail(_) =>
    case ClearStub(_) =>
    case SwapTail(_) =>
    case LinkStub(_, _, _) =>
    case Recheck(_) =>
    case Notify(_, _) =>
    case FetchSub =>
  }

  lemma StepEffect(s: State, a: Action)
    requires Core(s) && Enabled(s, a)
    ensures Effect(s, Next(s, a), OpOf(s, a))
  {
    match a
    case PollStep(w) =>
      assert PollOk(s, w);
      PollEffect(s, w);
    case ReleaseStep(r) =>
      assert PlaceOk(s, s.front) && PlaceOk(s, |s.hist| - 1);
      ReleaseEffect(s, r);
    case _ =>
  }

  // ----- the queue keeps its order -----

  lemma WaitersSnoc(xs: seq<Ref>, x: Ref)
    ensures Waiters(xs + [x]) == Waiters(xs) + (if x.Node? then [x.w] else [])
  {
    assert (xs + [x])[..|xs|] == xs;
  }

  lemma EffectOrders(s: State, s': State, op: Op)
    requires Orders(s) && Effect(s, s', op)
    ensures Orders(s')
  {
    hide Waiters;
    match op
    case Push(w) =>
      WaitersSnoc(s.hist, Node(w));
      assert s'.hist[..s.front] == s.hist[..s.front];
    case StubIn =>
      WaitersSnoc(s.hist, Stub);
      assert s'.hist[..s.front] == s.hist[..s.front];
    case Pop(w) =>
      WaitersSnoc(s.hist[..s.front], Node(w));
      assert s.hist[..s.front + 1] == s.hist[..s.front] + [s.hist[s.front]];
    case StubOut =>
      WaitersSnoc(s.hist[..s.front], Stub);
      assert s.hist[..s.front + 1] == s.hist[..s.front] + [s.hist[s.front]];
    case _ =>
  }

  // ----- permits are conserved -----

  /** The permits in clients' hands or set aside for them. */
  function HandedOut(s: State): nat { s.obtained + |AssignedSet(s)| }

  lemma PollHands(s: State, w: nat)
    requires Enabled(s, PollStep(w)) && PollOk(s, w)
    ensures HandedOut(PollNext(s, w)) == HandedOut(s) + (if OpOf(s, PollStep(w)) == Take then 1 else 0)
    ensures Undelivered(PollNext(s, w)) == Undelivered(s) && PollNext(s, w).initial == s.initial
    ensures PollNext(s, w).released == s.released
  {
    assert AssignedSet(PollNext(s, w)) == AssignedSet(s);
  }

  /** Does this step of `notify` give the popped waiter a permit? */
  predicate Hands(s: State, r: nat)
    requires r in s.rel
  {
    && s.rel[r].Busy? && s.rel[r].pc.Notify? && s.rel[r].pc.w in s.waiters
    && s.waiters[s.rel[r].pc.w].state == QueuedWaiting == s.rel[r].pc.seen
  }

  lemma ReleaseHands(s: State, r: nat)
    requires Enabled(s, ReleaseStep(r)) && !ReleaseNext(s, r).fault
    requires s.rel[r].pc.Notify? && s.rel[r].pc.w in s.waiters ==> s.waiters[s.rel[r].pc.w].state != Assigned
    ensures HandedOut(ReleaseNext(s, r)) == HandedOut(s) + (if Hands(s, r) then 1 else 0)
  {
    hide ReleaseNext;
    var s' := ReleaseNext(s, r);
    forall v ensures v in AssignedSet(s') <==> v in AssignedSet(s) || (Hands(s, r) && v == s.rel[r].pc.w) {
      StateKept(s, r, v);
    }
    StateKept(s, r, 0);
    if Hands(s, r) {
      assert AssignedSet(s') == AssignedSet(s) + {s.rel[r].pc.w};
    } else {
      assert AssignedSet(s') == AssignedSet(s);
    }
  }

  /** A releasing step changes the state of no node but the one it settles. */
  lemma StateKept(s: State, r: nat, v: nat)
    requires Enabled(s, ReleaseStep(r))
    ensures var s' := ReleaseNext(s, r);
            && s'.obtained == s.obtained && s'.initial == s.initial && s'.released == s.released
            && (v in s'.waiters <==> v in s.waiters)
            && (v in s.waiters ==>
                  || s'.waiters[v].state == s.waiters[v].state
                  || (s.rel[r].pc.Notify? && s.rel[r].pc.w == v
                      && s'.waiters[v].state == if Hands(s, r) then Assigned else Idle))
            && (Hands(s, r) && !s'.fault ==> s'.waiters[s.rel[r].pc.w].state == Assigned)
  {
    match s.rel[r].pc
    case ReadHead =>
    case LoadNext(_) =>
    case LoadWord =>
    case AddPermits(_) =>
    case SkipStub(_) =>
    case LoadNext2(_) =>
    case TakeHead(_, _) =>
    case LoadTail(_) =>
    case ClearStub(_) =>
    case SwapTail(_) =>
    case LinkStub(_, _, _) =>
    case Recheck(_) =>
    case Notify(_, _) =>
    case FetchSub =>
  }

  lemma BatchKept(s: State, r: nat)
    requires Enabled(s, ReleaseStep(r)) && !ReleaseNext(s, r).fault
    requires var pc := s.rel[r].pc; !pc.Notify? && !pc.FetchSub? && !pc.AddPermits?
    ensures var s' := ReleaseNext(s, r);
            && r in s'.rel && s'.rel[r].Busy? && s'.rel[r].batch == s.rel[r].batch && s'.rel[r].n == s.rel[r].n
            && s'.rx == s.rx && s'.holder == s.holder
  {
    match s.rel[r].pc
    case ReadHead =>
    case LoadNext(_) =>
    case LoadWord =>
    case SkipStub(_) =>
    case LoadNext2(_) =>
    case TakeHead(_, _) =>
    case LoadTail(_) =>
    case ClearStub(_) =>
    case SwapTail(_) =>
    case LinkStub(_, _, _) =>
    case Recheck(_) =>
  }

  lemma QuietDelivers(s: State, r: nat)
    requires Enabled(s, ReleaseStep(r)) && !ReleaseNext(s, r).fault && s.holder == Some(r)
    requires var pc := s.rel[r].pc; !pc.Notify? && !pc.FetchSub? && !pc.AddPermits?
    ensures Undelivered(ReleaseNext(s, r)) == Undelivered(s)
  {
    hide ReleaseNext;
    BatchKept(s, r);
  }

  lemma BusyDelivers(s: State, r: nat)
    requires Enabled(s, ReleaseStep(r)) && Ends(s) && Holds(s) && s.holder == Some(r) && !ReleaseNext(s, r).fault
    requires var pc := s.rel[r].pc; pc.Notify? || pc.FetchSub? || pc.AddPermits?
    ensures var op := OpOf(s, ReleaseStep(r));
            Undelivered(ReleaseNext(s, r)) ==
              Undelivered(s) - (if Hands(s, r) then 1 else if op.Give? then op.n else 0)
  {
    hide Ends, HolderOk;
    match s.rel[r].pc
    case Notify(_, _) =>
    case FetchSub =>
    case AddPermits(_) =>
  }

  lemma ReleaseDelivers(s: State, r: nat)
    requires Enabled(s, ReleaseStep(r)) && Ends(s) && Holds(s) && OneHolder(s) && !ReleaseNext(s, r).fault
    ensures var op := OpOf(s, ReleaseStep(r));
            Undelivered(ReleaseNext(s, r)) ==
              Undelivered(s) - (if Hands(s, r) then 1 else if op.Give? then op.n else 0)
  {
    hide ReleaseNext, Ends, Holds, Undelivered;
    assert s.holder == Some(r);
    var pc := s.rel[r].pc;
    if !pc.Notify? && !pc.FetchSub? && !pc.AddPermits? {
      QuietDelivers(s, r);
    } else {
      BusyDelivers(s, r);
    }
  }

  lemma NotifyUnassigned(s: State, r: nat)
    requires Polls(s) && r in s.rel && s.rel[r].Busy? && Ends(s) && Holds(s) && OneHolder(s)
    ensures s.rel[r].pc.Notify? && s.rel[r].pc.w in s.waiters ==> s.waiters[s.rel[r].pc.w].state != Assigned
  {
    if s.rel[r].pc.Notify? && s.rel[r].pc.w in s.waiters { assert PollOk(s, s.rel[r].pc.w); }
  }

  lemma ReleaseCounts(s: State, r: nat)
    requires Core(s) && Counts(s) && Enabled(s, ReleaseStep(r))
    ensures Counts(ReleaseNext(s, r))
  {
    hide ReleaseNext, Ends, Links, Placed, Polls, Holds, OneHolder, Undelivered, AssignedSet;
    StepEffect(s, ReleaseStep(r));
    NotifyUnassigned(s, r);
    StateKept(s, r, 0);
    StepCore(s, ReleaseStep(r));
    ReleaseHands(s, r);
    ReleaseDelivers(s, r);
  }

  /** The actions that are not steps inside a call. */
  lemma CallCounts(s: State, a: Action)
    requires Ends(s) && Holds(s) && OneHolder(s) && Counts(s) && Enabled(s, a) && !a.PollStep? && !a.ReleaseStep?
    ensures Counts(Next(s, a))
  {
    var s' := Next(s, a);
    if a.Acquire? && s.waiters[a.w].state == Assigned {
      assert AssignedSet(s') == AssignedSet(s) - {a.w};
    } else {
      assert AssignedSet(s') == AssignedSet(s);
    }
  }

  lemma StepCounts(s: State, a: Action)
    requires Core(s) && Counts(s) && Enabled(s, a)
    ensures Counts(Next(s, a))
  {
    match a
    case PollStep(w) =>
      StepEffect(s, a);
      assert PollOk(s, w);
      PollHands(s, w);
      hide PollNext, Ends, Links, Placed, Polls, Holds, OneHolder, PollOk, Undelivered, AssignedSet;
    case ReleaseStep(r) => ReleaseCounts(s, r);
    case _ => CallCounts(s, a);
  }
}
