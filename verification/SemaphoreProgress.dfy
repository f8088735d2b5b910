/** The call that holds `rx_lock` finishes on its own once no push is half done. */
module SemaphoreProgress {
  import opened Wrappers
  import opened SemaphoreMachine
  import opened SemaphoreInvariant
  import opened SemaphoreSteps
  import opened SemaphoreRuns
  import opened SemaphoreTheorems

  /** No `poll_permit` is between its push CAS and the store of its predecessor's `next`. */
  ghost predicate NoHalfPush(s: State) {
    forall w :: w in s.waiters ==> !s.waiters[w].pc.LinkPrev?
  }

  /**
   * The steps the holder may need before it delivers a permit or takes a node out of the queue.
   * A local that has gone stale since it was read costs one more trip round the outer loop.
   */
  function Rank(s: State, pc: RelPc): nat {
    match pc
    case FetchSub => 100
    case Notify(w, seen) => if w in s.waiters && s.waiters[w].state == seen then 60 else 61
    case ReadHead => 30
    case LoadNext(_) => 29
    case SkipStub(_) => 28
    case LoadNext2(_) => 27
    case LoadTail(h) => if NextOf(s, h) == None then 26 else 35
    case ClearStub(_) => 25
    case SwapTail(_) => 24
    case LinkStub(_, _, _) => 23
    case Recheck(h) => if NextOf(s, h) == None then 35 else 22
    case LoadWord => if NextOf(s, Stub) == None then 20 else 35
    case AddPermits(curr) => if s.word == curr then 10 else if NextOf(s, Stub) == None then 11 else 35
    case TakeHead(_, _) => 1
  }

  function RankOf(s: State, r: nat): nat {
    if r in s.rel && s.rel[r].Busy? then Rank(s, s.rel[r].pc) else 0
  }

  /** A head that is not linked is alone in the queue. */
  lemma HeadAlone(s: State)
    requires Inv(s) && NoHalfPush(s) && StubLink(s) == None
    ensures NextOf(s, s.head) == None <==> |s.hist| == s.front + 1
    ensures |s.hist| == s.front + 1 <==> s.hist[|s.hist| - 1] == s.head
  {
    assert PlaceOk(s, s.front) && PlaceOk(s, |s.hist| - 1);
    if s.front + 1 < |s.hist| { assert LinkOk(s, s.front); }
  }

  lemma HeadReadFalls(s: State, r: nat)
    requires Inv(s) && NoHalfPush(s) && r in s.rel && s.rel[r].Busy? && Reads(s, s.rel[r].pc)
    requires var pc := s.rel[r].pc; pc.ReadHead? || pc.LoadNext? || pc.LoadNext2?
    ensures RankOf(ReleaseNext(s, r), r) < RankOf(s, r)
  {
    hide Links, Placed, Polls, Counts, Orders, NoHalfPush;
    assert s.holder == Some(r) && StubLink(s) == None;
    HeadAlone(s);
    HeadFacts(s);
    match s.rel[r].pc
    case ReadHead =>
    case LoadNext(_) =>
    case LoadNext2(_) =>
  }

  lemma WordReadFalls(s: State, r: nat)
    requires Inv(s) && NoHalfPush(s) && r in s.rel && s.rel[r].Busy? && Reads(s, s.rel[r].pc)
    requires var pc := s.rel[r].pc; pc.LoadWord? || pc.AddPermits?
    ensures RankOf(ReleaseNext(s, r), r) < RankOf(s, r)
  {
    hide Links, Placed, Polls, Counts, Orders, NoHalfPush;
    assert s.holder == Some(r) && StubLink(s) == None;
    HeadAlone(s);
    HeadFacts(s);
    match s.rel[r].pc
    case LoadWord =>
    case AddPermits(_) =>
  }

  lemma TailReadFalls(s: State, r: nat)
    requires Inv(s) && NoHalfPush(s) && r in s.rel && s.rel[r].Busy? && Reads(s, s.rel[r].pc)
    requires var pc := s.rel[r].pc; pc.LoadTail? || pc.Recheck?
    ensures RankOf(ReleaseNext(s, r), r) < RankOf(s, r)
  {
    hide Links, Placed, Polls, Counts, Orders, NoHalfPush;
    assert s.holder == Some(r) && StubLink(s) == None;
    HeadAlone(s);
    HeadFacts(s);
    match s.rel[r].pc
    case LoadTail(_) =>
    case Recheck(_) =>
  }

  lemma ReadsFall(s: State, r: nat)
    requires Inv(s) && NoHalfPush(s) && r in s.rel && s.rel[r].Busy? && Reads(s, s.rel[r].pc)
    ensures RankOf(ReleaseNext(s, r), r) < RankOf(s, r)
  {
    hide Inv, NoHalfPush, RankOf, ReleaseNext;
    var pc := s.rel[r].pc;
    if pc.LoadWord? || pc.AddPermits? { WordReadFalls(s, r); }
    else if pc.LoadTail? || pc.Recheck? { TailReadFalls(s, r); }
    else { HeadReadFalls(s, r); }
  }

  lemma LinkStubFalls(s: State, r: nat)
    requires Inv(s) && NoHalfPush(s) && r in s.rel && s.rel[r].Busy? && s.rel[r].pc.LinkStub?
    ensures RankOf(ReleaseNext(s, r), r) < RankOf(s, r)
  {
    var s' := ReleaseNext(s, r);
    StepInv(s, ReleaseStep(r));
    assert s'.front + 1 < |s'.hist|;
    HeadAlone(s');
    hide Links, Placed, Polls, OneHolder, Counts, Orders, Ends;
  }

  /** A step that delivers nothing and takes nothing out of the queue lowers the rank. */
  lemma RankFalls(s: State, r: nat)
    requires Inv(s) && NoHalfPush(s) && Enabled(s, ReleaseStep(r))
    requires !Hands(s, r) && !OpOf(s, ReleaseStep(r)).Give? && !OpOf(s, ReleaseStep(r)).Pop?
    ensures RankOf(ReleaseNext(s, r), r) < RankOf(s, r)
  {
    var pc := s.rel[r].pc;
    if Reads(s, pc) {
      ReadsFall(s, r);
    } else if pc.LinkStub? {
      LinkStubFalls(s, r);
    } else if pc.Notify? {
      NotifyFalls(s, r);
    } else {
      WritesFall(s, r);
    }
    hide ReleaseNext, Inv, RankOf;
  }

  lemma NotifyFalls(s: State, r: nat)
    requires Inv(s) && Enabled(s, ReleaseStep(r)) && s.rel[r].pc.Notify? && !Hands(s, r)
    ensures RankOf(ReleaseNext(s, r), r) < RankOf(s, r)
  {
    assert s.holder == Some(r);
    assert PollOk(s, s.rel[r].pc.w);
    hide Links, Placed, Polls, OneHolder, Counts, Orders;
  }

  lemma WritesFall(s: State, r: nat)
    requires Inv(s) && NoHalfPush(s) && Enabled(s, ReleaseStep(r))
    requires !OpOf(s, ReleaseStep(r)).Give? && !OpOf(s, ReleaseStep(r)).Pop?
    requires var pc := s.rel[r].pc; !Reads(s, pc) && !pc.LinkStub? && !pc.Notify?
    ensures RankOf(ReleaseNext(s, r), r) < RankOf(s, r)
  {
    hide Links, Polls, Counts, Orders;
    assert s.holder == Some(r);
    assert PlaceOk(s, s.front);
    assert PlaceOk(s, |s.hist| - 1);
    hide Placed, OneHolder;
    match s.rel[r].pc
    case AddPermits(_) =>
    case SkipStub(_) =>
    case TakeHead(_, _) =>
    case ClearStub(_) =>
    case SwapTail(_) =>
    case FetchSub =>
  }

  /** What is left to do: permits to deliver, then waiters to pop, then steps. */
  lemma MeasureFalls(s: State, r: nat)
    requires Inv(s) && NoHalfPush(s) && r in s.rel && s.rel[r].Busy?
    ensures var s' := ReleaseNext(s, r);
            && Inv(s') && NoHalfPush(s') && r in s'.rel
            && 0 <= Undelivered(s') <= Undelivered(s)
            && (Undelivered(s') == Undelivered(s) ==> |AbsOf(s').queue| <= |AbsOf(s).queue|)
            && (Undelivered(s') == Undelivered(s) && |AbsOf(s').queue| == |AbsOf(s).queue| ==>
                  RankOf(s', r) < RankOf(s, r))
            && (s'.rel[r] == NoCall ==> s'.rx == 0 && s'.holder == None && Undelivered(s') == 0 && !s'.fault)
  {
    var s', a := ReleaseNext(s, r), ReleaseStep(r);
    StepInv(s, a);
    StepRefines(s, a);
    ReleaseDelivers(s, r);
    PcsKept(s, r);
    CallEnds(s, r);
    if Hands(s, r) || OpOf(s, a).Give? || OpOf(s, a).Pop? {
      if OpOf(s, a).Give? { GiveAlone(s, r); }
    } else {
      RankFalls(s, r);
    }
    hide ReleaseNext, Ends, Links, Placed, Polls, OneHolder, HolderOk, Orders, Rank, RankOf;
  }

  lemma PcKept(s: State, r: nat, w: nat)
    requires r in s.rel && s.rel[r].Busy?
    ensures var s' := ReleaseNext(s, r);
            && (w in s'.waiters <==> w in s.waiters)
            && (w in s.waiters ==> s'.waiters[w].pc == s.waiters[w].pc)
  {
    match s.rel[r].pc
    case ReadHead =>
    case LoadNext(_) =>
    case LoadWord =>
    case AddPermits(_) =>
    case SkipStub(_) =>
    case LoadNext2(_) =>
    case TakeHead(_, _) =>
    case LoadTail(_) =>
    case ClearStub(_) =>
    case SwapTail(_) =>
    case LinkStub(_, _, _) =>
    case Recheck(_) =>
    case Notify(_, _) =>
    case FetchSub =>
  }

  /** Only the last step of the call ends it. */
  lemma CallEnds(s: State, r: nat)
    requires r in s.rel && s.rel[r].Busy?
    ensures var s' := ReleaseNext(s, r);
            r in s'.rel && (s'.rel[r] == NoCall ==> s.rel[r].pc == FetchSub && s'.rx == 0 && s'.holder == None)
  {
    match s.rel[r].pc
    case ReadHead =>
    case LoadNext(_) =>
    case LoadWord =>
    case AddPermits(_) =>
    case SkipStub(_) =>
    case LoadNext2(_) =>
    case TakeHead(_, _) =>
    case LoadTail(_) =>
    case ClearStub(_) =>
    case SwapTail(_) =>
    case LinkStub(_, _, _) =>
    case Recheck(_) =>
    case Notify(_, _) =>
    case FetchSub =>
  }

  lemma PcsKept(s: State, r: nat)
    requires NoHalfPush(s) && r in s.rel && s.rel[r].Busy?
    ensures NoHalfPush(ReleaseNext(s, r)) && r in ReleaseNext(s, r).rel
  {
    hide ReleaseNext;
    CallEnds(s, r);
    forall w | w in ReleaseNext(s, r).waiters ensures !ReleaseNext(s, r).waiters[w].pc.LinkPrev? {
      PcKept(s, r, w);
    }
  }

  /** `k` steps of thread `r` and of nobody else. */
  function Alone(r: nat, k: nat): seq<Action> {
    if k == 0 then [] else [ReleaseStep(r)] + Alone(r, k - 1)
  }

  lemma ExecAlone(s: State, r: nat, k: nat)
    requires Enabled(s, ReleaseStep(r))
    ensures Exec(s, Alone(r, k + 1)) == Exec(ReleaseNext(s, r), Alone(r, k))
  {
    assert Alone(r, k + 1)[1..] == Alone(r, k);
  }

  predicate FinishedAfter(s: State, r: nat, k: nat) {
    var s' := Exec(s, Alone(r, k));
    s'.rx == 0 && s'.holder == None && Undelivered(s') == 0 && !s'.fault
  }

  /** Run alone, the holder leaves `release_one` with `rx_lock` at 0 and nothing undelivered. */
  lemma {:induction false} HolderFinishes(s: State, r: nat)
    requires Inv(s) && NoHalfPush(s) && r in s.rel && s.rel[r].Busy?
    ensures exists k: nat :: FinishedAfter(s, r, k)
    decreases Undelivered(s), |AbsOf(s).queue|, RankOf(s, r)
  {
    var s' := ReleaseNext(s, r);
    MeasureFalls(s, r);
    assert Enabled(s, ReleaseStep(r));
    var k: nat := 0;
    if s'.rel[r].Busy? {
      HolderFinishes(s', r);
      k :| FinishedAfter(s', r, k);
    }
    hide ReleaseNext, Inv, NoHalfPush, Undelivered, AbsOf, RankOf, Next, Enabled;
    ExecAlone(s, r, k);
    assert FinishedAfter(s, r, k + 1);
  }
}
