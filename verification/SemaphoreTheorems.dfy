/** The properties of the semaphore, over every run of its machine. */
module SemaphoreTheorems {
  import opened Wrappers
  import opened SemaphoreMachine
  import opened SemaphoreInvariant
  import opened SemaphoreSteps
  import opened SemaphoreRuns

  // ----- the invariant, and with it the absence of panics -----

  lemma InitInv(permits: nat, ws: set<nat>, rs: set<nat>)
    requires permits > 0
    ensures Inv(Init(permits, ws, rs))
  {
    var s := Init(permits, ws, rs);
    assert AssignedSet(s) == {};
    assert Waiters([Stub]) == [] by { WaitersSnoc([], Stub); assert [] + [Stub] == [Stub]; }
    assert PlaceOk(s, 0);
  }

  lemma StepInv(s: State, a: Action)
    requires Inv(s) && Enabled(s, a)
    ensures Inv(Next(s, a))
  {
    StepCore(s, a);
    StepCounts(s, a);
    StepEffect(s, a);
    EffectOrders(s, Next(s, a), OpOf(s, a));
    hide Core, Counts, Orders, Next;
  }

  lemma {:induction false} RunInv(s: State, acts: seq<Action>)
    requires Inv(s)
    ensures Inv(Exec(s, acts))
    decreases |acts|
  {
    hide Inv, Next;
    if acts != [] {
      if Enabled(s, acts[0]) {
        StepInv(s, acts[0]);
        RunInv(Next(s, acts[0]), acts[1..]);
      } else {
        RunInv(s, acts[1..]);
      }
    }
  }

  /** No interleaving reaches a panic, a failed `unwrap` or a failed assertion. */
  lemma NoPanic(permits: nat, ws: set<nat>, rs: set<nat>, acts: seq<Action>)
    requires permits > 0
    ensures !Exec(Init(permits, ws, rs), acts).fault
  {
    InitInv(permits, ws, rs);
    RunInv(Init(permits, ws, rs), acts);
  }

  // ----- the intrusive list refines a FIFO queue -----

  /** The semaphore as its callers see it: permits to take and waiters in order. */
  datatype Fifo = Fifo(permits: nat, queue: seq<nat>)

  function AbsOf(s: State): Fifo {
    Fifo(Available(s), Waiters(if s.front <= |s.hist| then s.hist[s.front..] else []))
  }

  predicate FifoEnabled(q: Fifo, op: Op) {
    match op
    case Take => q.permits > 0 && q.queue == []
    case Push(_) => q.permits == 0
    case Pop(w) => q.queue != [] && q.queue[0] == w && q.permits == 0
    case Give(n) => n > 0 && q.queue == []
    case _ => true
  }

  function FifoNext(q: Fifo, op: Op): Fifo
    requires FifoEnabled(q, op)
  {
    match op
    case Take => q.(permits := q.permits - 1)
    case Push(w) => q.(queue := q.queue + [w])
    case Pop(_) => q.(queue := q.queue[1..])
    case Give(n) => q.(permits := q.permits + n)
    case _ => q
  }

  lemma {:induction false} WaitersConcat(xs: seq<Ref>, ys: seq<Ref>)
    ensures Waiters(xs + ys) == Waiters(xs) + Waiters(ys)
    decreases |ys|
  {
    if ys == [] {
      assert xs + ys == xs;
    } else {
      var zs, y := ys[..|ys| - 1], ys[|ys| - 1];
      WaitersConcat(xs, zs);
      WaitersSnoc(xs + zs, y);
      WaitersSnoc(zs, y);
      assert xs + ys == (xs + zs) + [y] && ys == zs + [y];
    }
  }

  /** With permits available the live queue is the stub alone. */
  lemma NumberMode(s: State)
    requires Inv(s) && s.word.Num?
    ensures s.word.permits >= 1 && s.head == Stub && NextOf(s, Stub) == None && AbsOf(s).queue == []
    ensures forall w :: w in s.waiters ==> !s.waiters[w].pc.LinkPrev? && !s.waiters[w].loc.InQueue?
    ensures StubLink(s) == None
  {
    assert s.hist[s.front..] == [Stub];
    WaitersConcat([Stub], []);
    assert Waiters([Stub]) == [];
    forall w | w in s.waiters ensures !s.waiters[w].pc.LinkPrev? && !s.waiters[w].loc.InQueue? {
      assert PollOk(s, w);
    }
  }

  /** Every step is an enabled operation of the FIFO semaphore (the stub's moves are invisible to it). */
  lemma StepRefines(s: State, a: Action)
    requires Inv(s) && Enabled(s, a)
    ensures FifoEnabled(AbsOf(s), OpOf(s, a))
    ensures AbsOf(Next(s, a)) == FifoNext(AbsOf(s), OpOf(s, a))
  {
    var s', op := Next(s, a), OpOf(s, a);
    StepEffect(s, a);
    if s.word.Num? { NumberMode(s); }
    if a.ReleaseStep? && op.Give? {
      assert s.hist[s.front..] == [Stub] && Waiters([Stub]) == [] by { GiveAlone(s, a.r); WaitersConcat([Stub], []); }
    }
    WindowEffect(s, s', op);
    hide Next, Inv, OpOf, Effect;
  }

  /** The CAS that adds permits happens on an empty queue only. */
  lemma GiveAlone(s: State, r: nat)
    requires Inv(s) && Enabled(s, ReleaseStep(r)) && OpOf(s, ReleaseStep(r)).Give?
    ensures s.hist[s.front..] == [Stub] && OpOf(s, ReleaseStep(r)).n > 0
  {
    assert PlaceOk(s, s.front) && PlaceOk(s, |s.hist| - 1);
  }

  lemma WaitersCons(x: Ref, xs: seq<Ref>)
    ensures Waiters([x] + xs) == (if x.Node? then [x.w] else []) + Waiters(xs)
  {
    WaitersConcat([x], xs);
    assert [x] == [] + [x];
    WaitersSnoc([], x);
  }

  lemma WindowGrows(hist: seq<Ref>, front: nat, x: Ref)
    requires front <= |hist|
    ensures Waiters((hist + [x])[front..]) == Waiters(hist[front..]) + (if x.Node? then [x.w] else [])
  {
    assert (hist + [x])[front..] == hist[front..] + [x];
    WaitersSnoc(hist[front..], x);
  }

  lemma WindowShrinks(hist: seq<Ref>, front: nat)
    requires front < |hist|
    ensures Waiters(hist[front..]) ==
            (if hist[front].Node? then [hist[front].w] else []) + Waiters(hist[front + 1..])
  {
    assert hist[front..] == [hist[front]] + hist[front + 1..];
    WaitersCons(hist[front], hist[front + 1..]);
  }

  lemma WindowEffect(s: State, s': State, op: Op)
    requires s.front <= |s.hist| && Effect(s, s', op)
    ensures AbsOf(s').queue ==
            match op
            case Push(w) => AbsOf(s).queue + [w]
            case Pop(w) => (if AbsOf(s).queue != [] then AbsOf(s).queue[1..] else [])
            case _ => AbsOf(s).queue
    ensures op.Pop? ==> AbsOf(s).queue != [] && AbsOf(s).queue[0] == op.w
  {
    hide Waiters;
    match op
    case Push(w) => WindowGrows(s.hist, s.front, Node(w));
    case StubIn => WindowGrows(s.hist, s.front, Stub);
    case Pop(_) => WindowShrinks(s.hist, s.front);
    case StubOut => WindowShrinks(s.hist, s.front);
    case _ =>
  }

  /** The operations of a run, in order. */
  function Ops(s: State, acts: seq<Action>): seq<Op>
    decreases |acts|
  {
    if acts == [] then []
    else if Enabled(s, acts[0]) then [OpOf(s, acts[0])] + Ops(Next(s, acts[0]), acts[1..])
    else Ops(s, acts[1..])
  }

  /** The FIFO semaphore's own run of a list of operations, if each is enabled in turn. */
  function FifoRun(q: Fifo, ops: seq<Op>): Option<Fifo>
    decreases |ops|
  {
    if ops == [] then Some(q)
    else if FifoEnabled(q, ops[0]) then FifoRun(FifoNext(q, ops[0]), ops[1..])
    else None
  }

  lemma {:induction false} RunRefines(s: State, acts: seq<Action>)
    requires Inv(s)
    ensures FifoRun(AbsOf(s), Ops(s, acts)) == Some(AbsOf(Exec(s, acts)))
    decreases |acts|
  {
    hide Inv, Next, OpOf, AbsOf, FifoEnabled, FifoNext;
    if acts != [] {
      if Enabled(s, acts[0]) {
        StepInv(s, acts[0]);
        StepRefines(s, acts[0]);
        var s' := Next(s, acts[0]);
        RunRefines(s', acts[1..]);
        assert Ops(s, acts)[1..] == Ops(s', acts[1..]);
      } else {
        RunRefines(s, acts[1..]);
      }
    }
  }

  /** Waiters leave in exactly the order of their push CASes: none is lost, duplicated or overtaken. */
  lemma ServedInPushOrder(permits: nat, ws: set<nat>, rs: set<nat>, acts: seq<Action>)
    requires permits > 0
    ensures var s := Exec(Init(permits, ws, rs), acts);
            s.pushed == s.served + AbsOf(s).queue
  {
    InitInv(permits, ws, rs);
    RunInv(Init(permits, ws, rs), acts);
    var s := Exec(Init(permits, ws, rs), acts);
    WaitersConcat(s.hist[..s.front], s.hist[s.front..]);
    assert s.hist == s.hist[..s.front] + s.hist[s.front..];
  }

  /** The call that will store `next` of the node before position `i`: a pusher's or the stub's. */
  predicate OwesLink(s: State, i: nat)
    requires 0 < i < |s.hist|
  {
    match s.hist[i]
    case Node(w) => w in s.waiters && s.waiters[w].pc == LinkPrev(s.hist[i - 1], i)
    case Stub => StubLink(s) == Some((s.hist[i - 1], i))
  }

  /**
   * Neighbours in the queue are linked, or the one call that pushed the second is about to link
   * them; the last node has no successor, and no node is in the queue twice.
   */
  lemma ListIsLinked(s: State, i: nat, j: nat)
    requires Inv(s) && s.front <= i < |s.hist| && s.front <= j < |s.hist|
    ensures i + 1 < |s.hist| ==>
              NextOf(s, s.hist[i]) == (if OwesLink(s, i + 1) then None else Some(s.hist[i + 1]))
    ensures i + 1 == |s.hist| ==> NextOf(s, s.hist[i]) == None
    ensures s.hist[i] == s.hist[j] ==> i == j
    ensures s.head == s.hist[s.front]
    ensures s.word.Tail? ==> s.word.tail == s.hist[|s.hist| - 1]
  {
    assert PlaceOk(s, i) && PlaceOk(s, j);
    if i + 1 < |s.hist| { assert LinkOk(s, i); }
  }

  // ----- one consumer, one reference -----

  /**
   * `head` moves only in a step of the one call inside `release_one`, and `rx_lock` is 0 exactly
   * when there is none.
   */
  lemma SingleConsumer(s: State, r1: nat, r2: nat)
    requires Inv(s) && r1 in s.rel && r2 in s.rel
    ensures s.rel[r1].Busy? && s.rel[r2].Busy? ==> r1 == r2
    ensures s.rx == 0 <==> forall r :: r in s.rel ==> s.rel[r] == NoCall
    ensures forall a :: Enabled(s, a) && Next(s, a).head != s.head ==> a.ReleaseStep? && s.holder == Some(a.r)
  {
    forall a | Enabled(s, a) && Next(s, a).head != s.head ensures a.ReleaseStep? && s.holder == Some(a.r) {
      HeadKept(s, a);
    }
    hide Next, Ends, Links, Placed, Polls, Counts, Orders, HolderOk;
  }

  lemma HeadKept(s: State, a: Action)
    requires Enabled(s, a)
    ensures Next(s, a).head == s.head || a.ReleaseStep?
  {
    match a
    case PollStep(w) =>
      match s.waiters[w].pc {
        case PollCas(_, _, _) =>
        case LoadNodeState(_) =>
        case CasNodeState(_, _) =>
        case ClearNext(_) =>
        case LinkPrev(_, _) =>
        case Revert =>
      }
    case _ =>
  }

  /** The places from which another call can reach the node of waiter `w`. */
  function Positions(s: State, w: nat): set<int> {
    set i | s.front <= i < |s.hist| && s.hist[i] == Node(w)
  }

  /** Does the task's own call hold a reference that it has not put into the queue? */
  predicate PushHolds(s: State, w: nat)
    requires w in s.waiters
  {
    var pc := s.waiters[w].pc;
    pc.ClearNext? || pc.Revert? || (pc.PollCas? && pc.strong)
  }

  /** At most one raw reference to a node: in the queue, with the pushing call or with the popping call. */
  lemma OneReference(s: State, w: nat)
    requires Inv(s) && w in s.waiters
    ensures |Positions(s, w)| + (if PushHolds(s, w) then 1 else 0) + (if InHand(s) == Some(w) then 1 else 0) <= 1
    ensures s.waiters[w].pc == Revert ==> Positions(s, w) == {} && InHand(s) != Some(w)
  {
    assert PollOk(s, w);
    forall i | i in Positions(s, w) ensures s.waiters[w].loc == InQueue(i) { assert PlaceOk(s, i); }
    if s.waiters[w].loc.InQueue? {
      assert Positions(s, w) == {s.waiters[w].loc.pos} by { assert s.waiters[w].loc.pos in Positions(s, w); }
    } else {
      assert Positions(s, w) == {};
    }
  }

  // ----- permits -----

  /** Permits are conserved in every reachable state. */
  lemma Conservation(permits: nat, ws: set<nat>, rs: set<nat>, acts: seq<Action>)
    requires permits > 0
    ensures var s := Exec(Init(permits, ws, rs), acts);
            permits + s.released == Available(s) + s.obtained + |AssignedSet(s)| + Undelivered(s)
    ensures Undelivered(Exec(Init(permits, ws, rs), acts)) >= 0
  {
    InitInv(permits, ws, rs);
    RunInv(Init(permits, ws, rs), acts);
    InitialKept(Init(permits, ws, rs), acts);
  }

  lemma {:induction false} InitialKept(s: State, acts: seq<Action>)
    ensures Exec(s, acts).initial == s.initial
    decreases |acts|
  {
    if acts != [] {
      InitialKept(if Enabled(s, acts[0]) then Next(s, acts[0]) else s, acts[1..]);
    }
  }

  /** Every `release_one` of the run gives back a permit that some task obtained before. */
  predicate Disciplined(s: State, acts: seq<Action>)
    decreases |acts|
  {
    acts == [] ||
    (if Enabled(s, acts[0])
     then (acts[0].ReleaseCall? ==> s.released < s.obtained) && Disciplined(Next(s, acts[0]), acts[1..])
     else Disciplined(s, acts[1..]))
  }

  /** Permits returned never exceed permits obtained, and no batch exceeds the initial permits. */
  predicate Bounded(s: State) {
    && s.initial > 0
    && s.released <= s.obtained
    && (HolderPc(s).Some? ==> s.rel[s.holder.value].batch <= s.initial)
  }

  lemma ReleaseGives(s: State, r: nat)
    requires Enabled(s, ReleaseStep(r))
    ensures var s' := ReleaseNext(s, r);
            s'.initial == s.initial && s'.released == s.released && s'.obtained == s.obtained
  {
  }

  lemma ReleaseBounded(s: State, r: nat)
    requires Inv(s) && Bounded(s) && Enabled(s, ReleaseStep(r))
    ensures Bounded(ReleaseNext(s, r))
  {
    var pc := s.rel[r].pc;
    assert s.holder == Some(r);
    ReleaseGives(s, r);
    if pc.FetchSub? {
      assert Undelivered(s) <= s.initial;
      hide Ends, Links, Placed, Polls, OneHolder, HolderOk;
    } else if pc.Notify? {
      hide Ends, Links, Placed, Polls, OneHolder, Counts, Orders;
    } else if !pc.AddPermits? {
      StepCore(s, ReleaseStep(r));
      BatchKept(s, r);
      hide ReleaseNext, Inv;
    }
  }

  lemma PollGives(s: State, w: nat)
    requires Enabled(s, PollStep(w))
    ensures var s' := PollNext(s, w);
            && s'.initial == s.initial && s'.released == s.released && s.obtained <= s'.obtained
            && s'.rel == s.rel && s'.holder == s.holder
  {
    match s.waiters[w].pc
    case PollCas(_, _, _) =>
    case LoadNodeState(_) =>
    case CasNodeState(_, _) =>
    case ClearNext(_) =>
    case LinkPrev(_, _) =>
    case Revert =>
  }

  lemma StepBounded(s: State, a: Action)
    requires Inv(s) && Bounded(s) && Enabled(s, a) && (a.ReleaseCall? ==> s.released < s.obtained)
    ensures Bounded(Next(s, a))
  {
    match a
    case ReleaseStep(r) => ReleaseBounded(s, r);
    case PollStep(w) => PollGives(s, w); hide PollNext;
    case _ =>
  }

  lemma {:induction false} RunBounded(s: State, acts: seq<Action>)
    requires Inv(s) && Bounded(s) && Disciplined(s, acts)
    ensures Inv(Exec(s, acts)) && Bounded(Exec(s, acts))
    decreases |acts|
  {
    hide Inv, Next, Bounded;
    if acts != [] {
      if Enabled(s, acts[0]) {
        StepInv(s, acts[0]);
        StepBounded(s, acts[0]);
        RunBounded(Next(s, acts[0]), acts[1..]);
      } else {
        RunBounded(s, acts[1..]);
      }
    }
  }

  /**
   * At most the initial number of permits is ever in clients' hands; the shifted permit count
   * stays within that of the initial word, and `rx_lock` within twice the initial permits.
   */
  lemma NeverOverIssued(permits: nat, ws: set<nat>, rs: set<nat>, acts: seq<Action>)
    requires permits > 0 && Disciplined(Init(permits, ws, rs), acts)
    ensures var s := Exec(Init(permits, ws, rs), acts);
            && 0 <= s.obtained - s.released
            && s.obtained - s.released + |AssignedSet(s)| + Available(s) + Undelivered(s) == permits
            && 2 * Available(s) + 1 <= 2 * permits + 1
            && s.rx <= 2 * permits
  {
    var s0 := Init(permits, ws, rs);
    InitInv(permits, ws, rs);
    RunBounded(s0, acts);
    InitialKept(s0, acts);
  }

  lemma {:induction false} WaitersMember(xs: seq<Ref>, w: nat)
    requires Node(w) in xs
    ensures w in Waiters(xs)
  {
    if xs[|xs| - 1] != Node(w) { WaitersMember(xs[..|xs| - 1], w); }
  }

  predicate Quiescent(s: State) {
    && (forall w :: w in s.waiters ==> s.waiters[w].pc == Out)
    && (forall r :: r in s.rel ==> s.rel[r] == NoCall)
  }

  /** With no call in progress, a waiting node means that every permit is with a task or assigned to one. */
  lemma NothingStranded(s: State, w: nat)
    requires Inv(s) && Quiescent(s) && w in s.waiters && s.waiters[w].state == QueuedWaiting
    ensures Available(s) == 0 && Undelivered(s) == 0
    ensures s.obtained + |AssignedSet(s)| == s.initial + s.released
    ensures w in AbsOf(s).queue
  {
    assert PollOk(s, w);
    assert Node(w) in s.hist[s.front..] by {
      assert s.hist[s.front..][s.waiters[w].loc.pos - s.front] == Node(w);
    }
    WaitersMember(s.hist[s.front..], w);
    if s.word.Num? { NumberMode(s); }
  }

  // ----- what a poll comes to -----

  /** A call that was given a waiter and has not taken a permit. */
  predicate StillTrying(pc: PollPc) {
    match pc
    case PollCas(_, _, reg) => reg
    case LoadNodeState(_) => true
    case CasNodeState(_, _) => true
    case ClearNext(_) => true
    case LinkPrev(_, _) => true
    case _ => false
  }

  /** Each step of a poll with a waiter goes on trying, takes a permit, or returns with the task waiting. */
  lemma PollGoesOn(s: State, a: Action, w: nat)
    requires Enabled(s, a) && w in s.waiters
    requires a == PollCall(w, true) || (a == PollStep(w) && StillTrying(s.waiters[w].pc))
    ensures var s' := Next(s, a);
            && w in s'.waiters
            && (s'.fault || StillTrying(s'.waiters[w].pc) || s'.obtained == s.obtained + 1
                || (s'.waiters[w].pc == Out && s'.waiters[w].waiting))
  {
    if a.PollStep? {
      match s.waiters[w].pc
      case PollCas(_, _, _) =>
      case LoadNodeState(_) =>
      case CasNodeState(_, _) =>
      case ClearNext(_) =>
      case LinkPrev(_, _) =>
    }
  }

  /** A waiting task has been assigned a permit, or its node is queued or with the call that popped it. */
  lemma WaitingIsReachable(s: State, w: nat)
    requires Inv(s) && w in s.waiters && s.waiters[w].waiting
    ensures s.waiters[w].state == Assigned || w in AbsOf(s).queue || InHand(s) == Some(w)
  {
    assert PollOk(s, w);
    if s.waiters[w].loc.InQueue? {
      assert s.hist[s.front..][s.waiters[w].loc.pos - s.front] == Node(w);
      WaitersMember(s.hist[s.front..], w);
    }
  }

  /**
   * A poll with a waiter is never refused: it takes a permit, or leaves the task waiting where a
   * release will find it.
   */
  lemma PollNeverRefused(s: State, a: Action, w: nat)
    requires Inv(s) && Enabled(s, a) && w in s.waiters
    requires a == PollCall(w, true) || (a == PollStep(w) && StillTrying(s.waiters[w].pc))
    ensures var s' := Next(s, a);
            && w in s'.waiters
            && (|| StillTrying(s'.waiters[w].pc)
                || s'.obtained == s.obtained + 1
                || (s'.waiters[w].pc == Out &&
                    (s'.waiters[w].state == Assigned || w in AbsOf(s').queue || InHand(s') == Some(w))))
  {
    var s' := Next(s, a);
    hide Next, AbsOf, InHand, StillTrying, Enabled;
    PollGoesOn(s, a, w);
    StepInv(s, a);
    if s'.waiters[w].waiting { WaitingIsReachable(s', w); }
  }

  /** A poll without a waiter takes a permit or changes nothing but its own progress. */
  lemma BarePollHarmless(s: State, a: Action, w: nat)
    requires Inv(s) && Enabled(s, a) && w in s.waiters
    requires a == PollCall(w, false)
             || (a == PollStep(w) && s.waiters[w].pc.PollCas? && !s.waiters[w].pc.strong && !s.waiters[w].pc.reg)
    ensures var s' := Next(s, a);
            && w in s'.waiters
            && (s'.waiters[w].pc == Out
                || (s'.waiters[w].pc.PollCas? && !s'.waiters[w].pc.strong && !s'.waiters[w].pc.reg))
            && (s'.obtained == s.obtained + 1 || s' == SetWaiter(s, w, s.waiters[w].(pc := s'.waiters[w].pc)))
  {
    assert PollOk(s, w);
  }
}
