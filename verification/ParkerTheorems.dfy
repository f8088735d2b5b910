/** No wake-up of the parker is lost and no token is made up, over every run of its machine. */
module ParkerTheorems {
  import opened Wrappers
  import opened ParkerMachine

  predicate HoldsLock(pc: ParkPc) { pc.Flag? || pc.Consume? || pc.Wait? || pc.Recheck? || pc.Unlock? }

  /** From the CAS to PARKED until the word is reset. */
  predicate MayBeParked(pc: ParkPc) { pc.Wait? || pc.Asleep? || pc.Woken? || pc.Recheck? }

  /** The mutex excludes, and each word is one that its next reader expects. */
  predicate LockInv(s: State) {
    && (s.owner == Sleeper <==> HoldsLock(s.pc))
    && (forall u :: u in s.unparkers ==> (s.owner == Unparker(u) <==> s.unparkers[u] == Unlocking))
    && (s.owner.Unparker? ==> s.owner.u in s.unparkers)
    && s.word <= 2
    && (s.word == PARKED ==> MayBeParked(s.pc))
    && (s.word == EMPTY ==> !MayBeParked(s.pc))
    && (s.pc.Consume? ==> s.word == NOTIFIED)
    && (s.pc != Outside && !s.pc.Take? ==> s.pc.t != Zero)
    && !s.fault
  }

  /** A wake-up is on its way to a thread that waits, or is about to, although the token is there. */
  predicate WakeUpComing(s: State) {
    && (s.word == NOTIFIED && (s.pc.Wait? || s.pc.Asleep?) ==>
          && s.waker.Some? && s.waker.value in s.unparkers
          && s.unparkers[s.waker.value] in {Relock, Unlocking, NotifyOne})
    && (s.word == NOTIFIED && s.pc.Wait? ==> s.unparkers[s.waker.value] == Relock)
  }

  /** How many tokens the finished calls took. */
  function Taken(finished: seq<(Timeout, nat)>): nat {
    if finished == [] then 0 else Taken(finished[..|finished| - 1]) + finished[|finished| - 1].1
  }

  /** No call took two tokens, and an untimed one took one. */
  predicate OneTokenEach(finished: seq<(Timeout, nat)>) {
    forall r :: r in finished ==> r.1 <= 1 && (r.0 == Forever ==> r.1 == 1)
  }

  /** Every token was made by an unpark and is taken at most once; an untimed park takes exactly one. */
  predicate Accounted(s: State) {
    && s.created == s.consumed + (if s.word == NOTIFIED then 1 else 0)
    && s.created <= s.swaps
    && s.consumed == Taken(s.finished) + (if s.pc == Outside then 0 else s.took)
    && (s.pc != Outside ==> s.took <= 1)
    && (s.pc.Unlock? && s.pc.t == Forever ==> s.took == 1)
    && (s.pc != Outside && !s.pc.Unlock? ==> s.took == 0)
    && OneTokenEach(s.finished)
  }

  predicate Inv(s: State) { LockInv(s) && WakeUpComing(s) && Accounted(s) }

  lemma InitInv(us: set<nat>)
    ensures Inv(Init(us))
  {
  }

  lemma TakenSnoc(finished: seq<(Timeout, nat)>, r: (Timeout, nat))
    ensures Taken(finished + [r]) == Taken(finished) + r.1
  {
    assert (finished + [r])[..|finished|] == finished;
  }

  lemma ParkKeeps(s: State)
    requires LockInv(s) && WakeUpComing(s) && Enabled(s, ParkStep)
    ensures LockInv(ParkNext(s)) && WakeUpComing(ParkNext(s))
  {
    var s' := ParkNext(s);
    match s.pc
    case Take(_) =>
    case Lock(_) =>
    case Flag(_) =>
    case Consume(_) =>
    case Wait(_) =>
    case Woken(_) =>
    case Recheck(_) =>
    case Unlock(_) =>
  }

  lemma UnparkKeeps(s: State, u: nat)
    requires LockInv(s) && WakeUpComing(s) && Enabled(s, UnparkStep(u))
    ensures LockInv(UnparkNext(s, u)) && WakeUpComing(UnparkNext(s, u))
  {
    match s.unparkers[u]
    case Swap =>
    case Relock =>
    case Unlocking =>
    case NotifyOne =>
  }

  lemma OneMore(finished: seq<(Timeout, nat)>, t: Timeout, took: nat)
    requires OneTokenEach(finished) && took <= 1 && (t == Forever ==> took == 1)
    ensures OneTokenEach(finished + [(t, took)])
  {
  }

  lemma ParkAccounted(s: State)
    requires LockInv(s) && Accounted(s) && Enabled(s, ParkStep)
    ensures Accounted(ParkNext(s))
  {
    hide Taken, OneTokenEach;
    match s.pc
    case Take(t) =>
      var took := if s.word == NOTIFIED then 1 else 0;
      TakenSnoc(s.finished, (t, took));
      if s.word == NOTIFIED || t == Zero { OneMore(s.finished, t, took); }
    case Lock(_) =>
    case Flag(_) =>
    case Consume(_) =>
    case Wait(_) =>
    case Woken(_) =>
    case Recheck(_) =>
    case Unlock(t) =>
      TakenSnoc(s.finished, (t, s.took));
      OneMore(s.finished, t, s.took);
  }

  lemma UnparkAccounted(s: State, u: nat)
    requires LockInv(s) && Accounted(s) && Enabled(s, UnparkStep(u))
    ensures Accounted(UnparkNext(s, u))
  {
    hide Taken;
  }

  lemma StepInv(s: State, a: Action)
    requires Inv(s) && Enabled(s, a)
    ensures Inv(Next(s, a))
  {
    match a
    case ParkStep => ParkKeeps(s); ParkAccounted(s);
    case UnparkStep(u) => UnparkKeeps(s, u); UnparkAccounted(s, u);
    case _ =>
    hide ParkNext, UnparkNext, Taken;
  }

  lemma {:induction false} RunInv(s: State, acts: seq<Action>)
    requires Inv(s)
    ensures Inv(Exec(s, acts))
    decreases |acts|
  {
    hide Inv, Next;
    if acts != [] {
      if Enabled(s, acts[0]) {
        StepInv(s, acts[0]);
        RunInv(Next(s, acts[0]), acts[1..]);
      } else {
        RunInv(s, acts[1..]);
      }
    }
  }

  /** Neither "inconsistent state" panic nor the assertion on the swapped word is ever reached. */
  lemma NoPanic(us: set<nat>, acts: seq<Action>)
    ensures !Exec(Init(us), acts).fault
  {
    InitInv(us);
    RunInv(Init(us), acts);
  }

  /** In every run, a thread in the wait set with the token there has a `notify_one` still to come. */
  lemma NoLostWakeUp(us: set<nat>, acts: seq<Action>)
    ensures var s := Exec(Init(us), acts);
            && (s.word == NOTIFIED && s.pc.Asleep? ==>
                  exists u :: u in s.unparkers && s.unparkers[u] in {Relock, Unlocking, NotifyOne})
            && (s.word == NOTIFIED && s.pc.Wait? ==> exists u :: u in s.unparkers && s.unparkers[u] == Relock)
  {
    InitInv(us);
    RunInv(Init(us), acts);
  }

  function Untimed(finished: seq<(Timeout, nat)>): nat {
    if finished == [] then 0
    else Untimed(finished[..|finished| - 1]) + (if finished[|finished| - 1].0 == Forever then 1 else 0)
  }

  lemma {:induction false} UntimedTake(finished: seq<(Timeout, nat)>)
    requires OneTokenEach(finished)
    ensures Untimed(finished) <= Taken(finished)
  {
    if finished != [] { UntimedTake(finished[..|finished| - 1]); }
  }

  /** An untimed park returns with exactly one token, and never more often than unpark was called. */
  lemma TokensAccounted(us: set<nat>, acts: seq<Action>)
    ensures var s := Exec(Init(us), acts);
            && OneTokenEach(s.finished)
            && Untimed(s.finished) <= Taken(s.finished) <= s.consumed <= s.created <= s.swaps
            && s.created == s.consumed + (if s.word == NOTIFIED then 1 else 0)
  {
    InitInv(us);
    RunInv(Init(us), acts);
    UntimedTake(Exec(Init(us), acts).finished);
  }

  /** The swap of an unpark is followed by a park that returns at once, with the token. */
  lemma UnparkThenPark(s: State, u: nat, t: Timeout)
    requires Inv(s) && s.pc == Outside && u in s.unparkers && s.unparkers[u] == Swap
    ensures var s' := Exec(s, [UnparkStep(u), ParkCall(t), ParkStep]);
            s'.pc == Outside && s'.finished == s.finished + [(t, 1)] && s'.word == EMPTY
  {
    var a, b, c := UnparkStep(u), ParkCall(t), ParkStep;
    var s1 := Next(s, a);
    var s2 := Next(s1, b);
    assert s1.word == NOTIFIED && Enabled(s1, b) && Enabled(s2, c);
    assert [a, b, c][1..] == [b, c] && [b, c][1..] == [c] && [c][1..] == [];
    assert Exec(s, [a, b, c]) == Exec(s1, [b, c]) == Exec(s2, [c]) == Exec(Next(s2, c), []);
  }

  // ----- a token lets the parked thread go -----

  /** The parked thread has not yet seen the token that is there. */
  predicate Due(s: State) { s.word == NOTIFIED && s.pc != Outside && !s.pc.Unlock? }

  /** How many tokens the call in progress will have taken when the helpers have run. */
  function TokensAtReturn(s: State): nat { if Due(s) then 1 else s.took }

  /** Inside a call that the token lets return. */
  predicate Going(s: State) { Inv(s) && s.pc != Outside && (Due(s) || s.pc.Unlock?) }

  /** Somebody to run: the holder of the mutex, the thread bound to wake the sleeper, or the parking thread. */
  function Helper(s: State): Action
    requires Going(s)
  {
    if s.owner.Unparker? then UnparkStep(s.owner.u)
    else if s.pc.Asleep? then UnparkStep(s.waker.value)
    else ParkStep
  }

  function Rank(s: State): nat {
    var held := if s.owner.Unparker? then 1 else 0;
    match s.pc
    case Outside => 0
    case Unlock(_) => 1
    case Consume(_) => 2
    case Recheck(_) => 2
    case Flag(_) => 3
    case Woken(_) => 3 + held
    case Lock(_) => 4 + held
    case Take(_) => 1 + held
    case Asleep(_) =>
      if s.waker.None? || s.waker.value !in s.unparkers then 0
      else
        (match s.unparkers[s.waker.value]
         case Relock => 7 + held
         case Unlocking => 6
         case _ => 5 + held)
    case Wait(_) => 8
  }

  lemma HelperHelps(s: State)
    requires Going(s)
    ensures Enabled(s, Helper(s)) && (Helper(s).ParkStep? || Helper(s).UnparkStep?)
    ensures Rank(Next(s, Helper(s))) < Rank(s) <= 8
    ensures var s' := Next(s, Helper(s));
            if s'.pc == Outside then s'.finished == s.finished + [(s.pc.t, TokensAtReturn(s))]
            else
              && s'.pc.t == s.pc.t && s'.finished == s.finished && TokensAtReturn(s') == TokensAtReturn(s)
              && (Due(s') || s'.pc.Unlock?)
  {
  }

  /** A run of at most `n` steps of calls already in progress, none of them a wake-up from nowhere. */
  predicate Prompt(acts: seq<Action>, n: nat) {
    |acts| <= n && forall a :: a in acts ==> a.ParkStep? || a.UnparkStep?
  }

  predicate Released(s: State, acts: seq<Action>, t: Timeout, took: nat) {
    var s' := Exec(s, acts);
    Prompt(acts, Rank(s)) && s'.pc == Outside && s'.finished == s.finished + [(t, took)]
  }

  /**
   * From every reachable state in which the token is there and the parking thread is inside
   * its call, at most eight steps of the calls in progress let it return with that token.
   */
  lemma {:induction false} TokenReleases(s: State)
    requires Going(s)
    ensures Rank(s) <= 8
    ensures exists acts :: Released(s, acts, s.pc.t, TokensAtReturn(s))
    decreases Rank(s)
  {
    HelperHelps(s);
    var a := Helper(s);
    var s' := Next(s, a);
    StepInv(s, a);
    hide Inv, Next, Enabled, Helper, Rank, Due, TokensAtReturn;
    var rest: seq<Action> := [];
    if s'.pc != Outside {
      TokenReleases(s');
      rest :| Released(s', rest, s.pc.t, TokensAtReturn(s));
    }
    var acts := [a] + rest;
    assert acts[1..] == rest && acts[0] == a;
    assert Exec(s, acts) == Exec(s', rest);
    assert Prompt(acts, Rank(s));
    assert Released(s, acts, s.pc.t, TokensAtReturn(s));
  }

  // ----- a call with a time limit needs nobody's help -----

  /** Somebody to run: the holder of the mutex, the clock, or the parking thread. */
  function TimedHelper(s: State): Action {
    if s.owner.Unparker? then UnparkStep(s.owner.u) else if s.pc.Asleep? then Wake else ParkStep
  }

  function TimedRank(s: State): nat {
    var held := if s.owner.Unparker? then 1 else 0;
    match s.pc
    case Outside => 0
    case Unlock(_) => 1
    case Consume(_) => 2
    case Recheck(_) => 2
    case Woken(_) => 3 + held
    case Asleep(_) => 4 + held
    case Wait(_) => 5
    case Flag(_) => 6
    case Lock(_) => 7 + held
    case Take(_) => 8 + held
  }

  lemma TimedHelps(s: State)
    requires Inv(s) && s.pc != Outside && s.pc.t != Forever
    ensures var a := TimedHelper(s);
            && Enabled(s, a) && Next(s, a).swaps == s.swaps
            && TimedRank(Next(s, a)) < TimedRank(s) <= 9
            && (Next(s, a).pc != Outside ==> Next(s, a).pc.t == s.pc.t)
  {
  }

  /** The parking thread is outside again after at most `n` of these steps, and no unpark has made its swap. */
  predicate TimesOut(s: State, acts: seq<Action>, n: nat) {
    && |acts| <= n && (forall a :: a in acts ==> a.ParkStep? || a.Wake? || a.UnparkStep?)
    && Exec(s, acts).pc == Outside && Exec(s, acts).swaps == s.swaps
  }

  /** From every reachable state inside a call with a time limit, it can return within nine steps, unparked or not. */
  lemma {:induction false} TimedReturns(s: State)
    requires Inv(s) && s.pc != Outside && s.pc.t != Forever
    ensures TimedRank(s) <= 9 && exists acts :: TimesOut(s, acts, TimedRank(s))
    decreases TimedRank(s)
  {
    TimedHelps(s);
    var a := TimedHelper(s);
    var s' := Next(s, a);
    StepInv(s, a);
    assert a.ParkStep? || a.Wake? || a.UnparkStep?;
    hide Inv, Next, Enabled, TimedHelper, TimedRank;
    var rest: seq<Action> := [];
    if s'.pc != Outside {
      TimedReturns(s');
      rest :| TimesOut(s', rest, TimedRank(s'));
    }
    var acts := [a] + rest;
    assert acts[1..] == rest && acts[0] == a;
    assert Exec(s, acts) == Exec(s', rest);
    assert TimesOut(s, acts, TimedRank(s));
  }

  /** An unpark that finds nobody parked is done with its swap: it touches neither mutex nor condition variable. */
  lemma UnparkAlone(s: State, u: nat)
    requires Enabled(s, UnparkStep(u)) && s.unparkers[u] == Swap && s.word <= 2
    ensures var s' := Next(s, UnparkStep(u));
            s'.word == NOTIFIED && (s'.unparkers[u] == Resting <==> s.word != PARKED)
  {
  }
}
