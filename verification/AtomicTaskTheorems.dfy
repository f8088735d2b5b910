/** Exclusive access, conservation of handles and no lost wake-up, over every run of `AtomicTask`. */
module AtomicTaskTheorems {
  import opened Wrappers
  import opened AtomicTaskMachine

  /** Between winning and releasing the lock on the cell. */
  predicate Holding(pc: Pc) {
    pc.RegStore? || pc.RegRelease? || pc.RegTake? || pc.RegSwap? || pc.NotTake? || pc.NotRelease?
  }

  /** The handle that a thread holds. */
  function HandOf(pc: Pc): Option<Task> {
    match pc
    case RegCas(t) => Some(t)
    case RegStore(t) => Some(t)
    case RegSwap(t) => Some(t)
    case NotRelease(got) => got
    case Calling(t, _) => Some(t)
    case _ => None
  }

  /** The handle whose register call a thread is in. */
  function OwnTask(pc: Pc): Option<Task> {
    match pc
    case RegCas(t) => Some(t)
    case RegStore(t) => Some(t)
    case RegRelease(t) => Some(t)
    case RegTake(t) => Some(t)
    case RegSwap(t) => Some(t)
    case Calling(t, true) => Some(t)
    case _ => None
  }

  /** The two bits say who may touch the cell, and what is in it when it matters. */
  predicate OwnerOk(s: State, pc: Pc) {
    && (pc.RegStore? || pc.RegRelease? ==> s.word == 1 || s.word == 3)
    && (pc.RegTake? || pc.RegSwap? ==> s.word == 3)
    && (pc.NotTake? || pc.NotRelease? ==> s.word == 2)
    && (pc.RegRelease? || pc.RegTake? ==> s.cell == Some(pc.t))
    && (pc.RegSwap? || pc.NotRelease? ==> s.cell == None)
  }

  predicate ThreadOk(s: State, i: nat)
    requires i in s.threads
  {
    && (Holding(s.threads[i]) <==> s.owner == Some(i))
    && (OwnTask(s.threads[i]).Some? ==> i in s.consumers)
  }

  predicate LockInv(s: State) {
    && !s.fault
    && (forall i :: i in s.threads ==> ThreadOk(s, i))
    && (s.owner == None <==> s.word == WAITING)
    && (s.owner.Some? ==> s.owner.value in s.threads && OwnerOk(s, s.threads[s.owner.value]))
  }

  /** Every handle is where `home` says, and nowhere else. */
  predicate HomeOk(s: State, t: Task) {
    && (t in s.home <==> t < s.issued)
    && (t in s.home && s.home[t].Hand? ==>
          s.home[t].i in s.threads && HandOf(s.threads[s.home[t].i]) == Some(t))
    && (s.cell == Some(t) <==> t in s.home && s.home[t] == InCell)
    && s.notified[t] == (if t in s.home && s.home[t] == Notified then 1 else 0)
    && s.replaced[t] == (if t in s.home && s.home[t] == Replaced then 1 else 0)
    && s.dropped[t] == (if t in s.home && s.home[t] == Dropped then 1 else 0)
  }

  predicate HandOk(s: State, i: nat)
    requires i in s.threads
  {
    var h := HandOf(s.threads[i]);
    h.Some? ==> h.value in s.home && s.home[h.value] == Hand(i)
  }

  ghost predicate HomeInv(s: State) {
    && (forall t: Task :: HomeOk(s, t))
    && (forall i :: i in s.threads ==> HandOk(s, i))
  }

  /** A register call in progress has not returned. */
  predicate OwnOk(s: State, i: nat)
    requires i in s.threads
  {
    var t := OwnTask(s.threads[i]);
    t.Some? ==> t.value !in s.completed && t.value < s.issued
  }

  /**
   * A handle already called for that is still in the cell is about to be taken, or replaced by a
   * call that will be told.
   */
  predicate LateInv(s: State) {
    && s.late <= s.completed
    && (forall t :: t in s.completed ==> t < s.issued)
    && (forall i :: i in s.threads ==> OwnOk(s, i))
    && CellLate(s)
  }

  predicate CellLate(s: State) {
    s.cell.Some? && s.cell.value in s.late ==>
      && s.owner.Some? && s.owner.value in s.threads
      && (s.threads[s.owner.value].NotTake? || (s.threads[s.owner.value].RegStore? && s.word == 3))
  }

  ghost predicate Inv(s: State) { LockInv(s) && HomeInv(s) && LateInv(s) }

  lemma InitInv(ts: set<nat>, cs: set<nat>)
    ensures Inv(Init(ts, cs))
  {
  }

  // ----- the lock -----

  /** Thread `i` has moved and no other. */
  predicate Moved(s: State, s': State, i: nat) {
    && s'.consumers == s.consumers && i in s.threads && i in s'.threads
    && s'.threads == s.threads[i := s'.threads[i]]
  }

  /** At most, thread `i` has taken the lock on the cell or given it back. */
  predicate OwnerMoves(s: State, s': State, i: nat) {
    || s'.owner == s.owner
    || (s.owner == None && s'.owner == Some(i))
    || (s.owner == Some(i) && s'.owner == None)
  }

  lemma RegisterMoves(s: State, i: nat)
    requires LockInv(s) && Enabled(s, Step(i)) && Registering(s.threads[i])
    ensures Moved(s, RegisterStep(s, i), i)
  {
    assert ThreadOk(s, i);
    hide ThreadOk;
    match s.threads[i]
    case RegCas(_) =>
    case RegStore(_) =>
    case RegRelease(_) =>
    case RegTake(_) =>
    case RegSwap(_) =>
  }

  lemma NotifyMoves(s: State, i: nat)
    requires LockInv(s) && Enabled(s, Step(i)) && !Registering(s.threads[i])
    ensures Moved(s, NotifyStep(s, i), i)
  {
    assert ThreadOk(s, i);
    hide ThreadOk;
    match s.threads[i]
    case FetchOr =>
    case NotTake =>
    case NotRelease(_) =>
    case Calling(_, _) =>
  }

  lemma OthersLock(s: State, s': State, i: nat)
    requires LockInv(s) && Moved(s, s', i) && ThreadOk(s', i)
    requires OwnerMoves(s, s', i)
    ensures forall j :: j in s'.threads ==> ThreadOk(s', j)
  {
    forall j | j in s'.threads ensures ThreadOk(s', j) { assert ThreadOk(s, j); }
  }

  /** What the two bit operations do to the words that occur. */
  lemma Bits()
    ensures FetchOrNotifying(0) == 2 && FetchOrNotifying(1) == 3 && FetchOrNotifying(2) == 2 && FetchOrNotifying(3) == 3
    ensures FetchAndNotNotifying(2) == 0
  {
  }

  lemma RegisterOwner(s: State, i: nat)
    requires LockInv(s) && Enabled(s, Step(i)) && Registering(s.threads[i])
    ensures var s' := RegisterStep(s, i);
            && !s'.fault && i in s'.threads && ThreadOk(s', i)
            && OwnerMoves(s, s', i)
            && (s'.owner == None <==> s'.word == WAITING)
            && (s'.owner.Some? ==> s'.owner.value in s'.threads && OwnerOk(s', s'.threads[s'.owner.value]))
  {
    assert ThreadOk(s, i);
    match s.threads[i]
    case RegCas(_) =>
    case RegStore(_) =>
    case RegRelease(_) =>
    case RegTake(_) =>
    case RegSwap(_) =>
  }

  lemma RegisterLock(s: State, i: nat)
    requires LockInv(s) && Enabled(s, Step(i)) && Registering(s.threads[i])
    ensures LockInv(RegisterStep(s, i))
  {
    RegisterMoves(s, i);
    RegisterOwner(s, i);
    hide RegisterStep, ThreadOk, OwnerOk, Moved;
    OthersLock(s, RegisterStep(s, i), i);
  }

  lemma NotifyOwner(s: State, i: nat)
    requires LockInv(s) && Enabled(s, Step(i)) && !Registering(s.threads[i])
    ensures var s' := NotifyStep(s, i);
            && !s'.fault && i in s'.threads && ThreadOk(s', i)
            && OwnerMoves(s, s', i)
            && (s'.owner == None <==> s'.word == WAITING)
            && (s'.owner.Some? ==> s'.owner.value in s'.threads && OwnerOk(s', s'.threads[s'.owner.value]))
  {
    Bits();
    hide FetchOrNotifying, FetchAndNotNotifying;
    assert ThreadOk(s, i);
    match s.threads[i]
    case FetchOr =>
    case NotTake =>
    case NotRelease(_) =>
    case Calling(_, _) =>
  }

  lemma NotifyLock(s: State, i: nat)
    requires LockInv(s) && Enabled(s, Step(i)) && !Registering(s.threads[i])
    ensures LockInv(NotifyStep(s, i))
  {
    NotifyMoves(s, i);
    NotifyOwner(s, i);
    hide NotifyStep, ThreadOk, OwnerOk, Moved;
    OthersLock(s, NotifyStep(s, i), i);
  }

  lemma StepLock(s: State, a: Action)
    requires LockInv(s) && Enabled(s, a)
    ensures LockInv(Next(s, a))
  {
    hide RegisterStep, NotifyStep;
    match a
    case Step(i) => if Registering(s.threads[i]) { RegisterLock(s, i); } else { NotifyLock(s, i); }
    case Register(i) => assert ThreadOk(s, i); OthersLock(s, Next(s, a), i);
    case Notify(i) => assert ThreadOk(s, i); OthersLock(s, Next(s, a), i);
    case _ => forall j | j in s.threads ensures ThreadOk(Next(s, a), j) { assert ThreadOk(s, j); }
  }

  // ----- the handles -----

  predicate SameBooks(s: State, s': State) {
    && s'.home == s.home && s'.issued == s.issued && s'.cell == s.cell
    && s'.notified == s.notified && s'.replaced == s.replaced && s'.dropped == s.dropped
  }

  lemma HandKept(s: State, s': State, i: nat)
    requires HomeInv(s) && SameBooks(s, s') && Moved(s, s', i) && HandOf(s'.threads[i]) == HandOf(s.threads[i])
    ensures HomeInv(s')
  {
    forall t: Task ensures HomeOk(s', t) { assert HomeOk(s, t); }
    forall j | j in s'.threads ensures HandOk(s', j) { assert HandOk(s, j); }
  }

  /** The handle in the hand of thread `i` goes to its last place, or into the empty cell. */
  lemma HandGone(s: State, s': State, i: nat, t: Task, p: Place)
    requires HomeInv(s) && Moved(s, s', i) && HandOf(s.threads[i]) == Some(t) && HandOf(s'.threads[i]) == None
    requires s'.home == s.home[t := p] && s'.issued == s.issued && s'.replaced == s.replaced
    requires p == Dropped || p == Notified || (p == InCell && s.cell == None)
    requires s'.cell == if p == InCell then Some(t) else s.cell
    requires s'.dropped == if p == Dropped then s.dropped + multiset{t} else s.dropped
    requires s'.notified == if p == Notified then s.notified + multiset{t} else s.notified
    ensures HomeInv(s')
  {
    assert HandOk(s, i);
    forall u: Task ensures HomeOk(s', u) { assert HomeOk(s, u); }
    forall j | j in s'.threads ensures HandOk(s', j) { assert HandOk(s, j); }
  }

  lemma CellReplaced(s: State, s': State, t: Task)
    requires HomeInv(s) && s.cell == Some(t)
    requires s' == s.(home := s.home[t := Replaced], replaced := s.replaced + multiset{t}, cell := None)
    ensures HomeInv(s')
  {
    forall u: Task ensures HomeOk(s', u) { assert HomeOk(s, u); }
    assert HomeOk(s, t);
    forall j | j in s'.threads ensures HandOk(s', j) { assert HandOk(s, j); }
  }

  lemma CellTaken(s: State, s': State, i: nat, t: Task)
    requires HomeInv(s) && Moved(s, s', i) && HandOf(s.threads[i]) == None && HandOf(s'.threads[i]) == Some(t)
    requires s.cell == Some(t) && s'.cell == None && s'.home == s.home[t := Hand(i)] && s'.issued == s.issued
    requires s'.notified == s.notified && s'.replaced == s.replaced && s'.dropped == s.dropped
    ensures HomeInv(s')
  {
    assert HomeOk(s, t);
    forall u: Task ensures HomeOk(s', u) { assert HomeOk(s, u); }
    forall j | j in s'.threads ensures HandOk(s', j) { assert HandOk(s, j); }
  }

  lemma Issued(s: State, i: nat)
    requires HomeInv(s) && Enabled(s, Register(i))
    ensures HomeInv(Next(s, Register(i)))
  {
    var s' := Next(s, Register(i));
    assert HomeOk(s, s.issued);
    forall u: Task ensures HomeOk(s', u) { assert HomeOk(s, u); }
    forall j | j in s'.threads ensures HandOk(s', j) { assert HandOk(s, j); }
  }

  lemma RegisterHome(s: State, i: nat)
    requires LockInv(s) && HomeInv(s) && Enabled(s, Step(i)) && Registering(s.threads[i])
    ensures HomeInv(RegisterStep(s, i))
  {
    var s' := RegisterStep(s, i);
    assert ThreadOk(s, i);
    RegisterMoves(s, i);
    hide HomeInv, Moved;
    match s.threads[i]
    case RegCas(t) =>
      if s.word == WAITING || s.word == NOTIFYING { HandKept(s, s', i); } else { HandGone(s, s', i, t, Dropped); }
    case RegStore(t) =>
      if s.cell.Some? {
        var s1 := s.(home := s.home[s.cell.value := Replaced],
                     replaced := s.replaced + multiset{s.cell.value}, cell := None);
        CellReplaced(s, s1, s.cell.value);
        HandGone(s1, s', i, t, InCell);
      } else {
        HandGone(s, s', i, t, InCell);
      }
    case RegRelease(_) => HandKept(s, s', i);
    case RegTake(t) => CellTaken(s, s', i, t);
    case RegSwap(_) => HandKept(s, s', i);
  }

  lemma NotifyHome(s: State, i: nat)
    requires LockInv(s) && HomeInv(s) && Enabled(s, Step(i)) && !Registering(s.threads[i])
    ensures HomeInv(NotifyStep(s, i))
  {
    hide FetchOrNotifying, FetchAndNotNotifying;
    var s' := NotifyStep(s, i);
    assert ThreadOk(s, i);
    NotifyMoves(s, i);
    hide HomeInv, Moved;
    match s.threads[i]
    case FetchOr => HandKept(s, s', i);
    case NotTake => if s.cell.Some? { CellTaken(s, s', i, s.cell.value); } else { HandKept(s, s', i); }
    case NotRelease(_) => HandKept(s, s', i);
    case Calling(t, _) => HandGone(s, s', i, t, Notified);
  }

  lemma StepHome(s: State, a: Action)
    requires LockInv(s) && HomeInv(s) && Enabled(s, a)
    ensures HomeInv(Next(s, a))
  {
    hide RegisterStep, NotifyStep;
    match a
    case Step(i) => if Registering(s.threads[i]) { RegisterHome(s, i); } else { NotifyHome(s, i); }
    case Register(i) => Issued(s, i);
    case Notify(i) => HandKept(s, Next(s, a), i);
    case _ =>
      forall u: Task ensures HomeOk(Next(s, a), u) { assert HomeOk(s, u); }
      forall j | j in s.threads ensures HandOk(Next(s, a), j) { assert HandOk(s, j); }
  }

  // ----- wake-ups -----

  /** Two register calls in progress have different handles. */
  lemma OwnDistinct(s: State, i: nat, j: nat)
    requires LockInv(s) && HomeInv(s) && i in s.threads && j in s.threads && i != j
    requires OwnTask(s.threads[i]).Some?
    ensures OwnTask(s.threads[i]) != OwnTask(s.threads[j])
  {
    assert ThreadOk(s, i) && ThreadOk(s, j) && HandOk(s, i) && HandOk(s, j);
    assert HomeOk(s, OwnTask(s.threads[i]).value);
  }

  lemma OthersOwn(s: State, s': State, i: nat)
    requires Inv(s) && Moved(s, s', i) && s'.issued >= s.issued && OwnOk(s', i)
    requires s'.completed <= s.completed ||
             (OwnTask(s.threads[i]).Some? && s'.completed <= s.completed + {OwnTask(s.threads[i]).value})
    ensures forall j :: j in s'.threads ==> OwnOk(s', j)
  {
    forall j | j in s'.threads ensures OwnOk(s', j) {
      assert OwnOk(s, j);
      if j != i && OwnTask(s.threads[i]).Some? { OwnDistinct(s, i, j); }
    }
  }

  lemma RegisterCell(s: State, i: nat)
    requires LockInv(s) && LateInv(s) && Enabled(s, Step(i)) && Registering(s.threads[i])
    ensures CellLate(RegisterStep(s, i))
  {
    assert ThreadOk(s, i) && OwnOk(s, i);
    if s.owner.Some? { assert ThreadOk(s, s.owner.value); }
    match s.threads[i]
    case RegCas(_) =>
    case RegStore(_) =>
    case RegRelease(_) =>
    case RegTake(_) =>
    case RegSwap(_) =>
  }

  lemma TakesItsOwn(s: State, i: nat)
    requires LockInv(s) && i in s.threads && s.threads[i].RegTake?
    ensures s.cell == Some(s.threads[i].t)
  {
    assert ThreadOk(s, i);
  }

  lemma RegisterCompletes(s: State, i: nat)
    requires Inv(s) && Enabled(s, Step(i)) && Registering(s.threads[i])
    ensures var s', o := RegisterStep(s, i), OwnTask(s.threads[i]);
            && i in s'.threads && OwnOk(s', i) && s'.issued == s.issued
            && s'.completed ==
               (if o.Some? && OwnTask(s'.threads[i]) == None then s.completed + {o.value} else s.completed)
            && s'.late <= s'.completed
  {
    hide HomeInv, CellLate, OwnerOk, LockInv;
    if s.threads[i].RegTake? { TakesItsOwn(s, i); }
    assert OwnOk(s, i);
    match s.threads[i]
    case RegCas(_) =>
    case RegStore(_) =>
    case RegRelease(_) =>
    case RegTake(_) =>
    case RegSwap(_) =>
  }

  lemma RegisterLate(s: State, i: nat)
    requires Inv(s) && Enabled(s, Step(i)) && Registering(s.threads[i])
    ensures LateInv(RegisterStep(s, i))
  {
    RegisterMoves(s, i);
    RegisterCell(s, i);
    RegisterCompletes(s, i);
    assert OwnOk(s, i);
    hide RegisterStep, Moved, HomeInv, LockInv, CellLate;
    OthersOwn(s, RegisterStep(s, i), i);
  }

  lemma NotifyCell(s: State, i: nat)
    requires LockInv(s) && LateInv(s) && Enabled(s, Step(i)) && !Registering(s.threads[i])
    ensures CellLate(NotifyStep(s, i))
  {
    Bits();
    hide FetchOrNotifying, FetchAndNotNotifying;
    assert ThreadOk(s, i);
    if s.owner.Some? { assert ThreadOk(s, s.owner.value) && OwnOk(s, s.owner.value); }
  }

  lemma NotifyCompletes(s: State, i: nat)
    requires Inv(s) && Enabled(s, Step(i)) && !Registering(s.threads[i])
    ensures var s', o := NotifyStep(s, i), OwnTask(s.threads[i]);
            && i in s'.threads && OwnOk(s', i) && s'.issued == s.issued
            && s'.completed ==
               (if o.Some? && OwnTask(s'.threads[i]) == None then s.completed + {o.value} else s.completed)
            && s'.late <= s'.completed
  {
    hide FetchOrNotifying, FetchAndNotNotifying;
    hide HomeInv, CellLate, OwnerOk;
    assert ThreadOk(s, i) && OwnOk(s, i);
    match s.threads[i]
    case FetchOr =>
    case NotTake =>
    case NotRelease(_) =>
    case Calling(_, _) =>
  }

  lemma NotifyLate(s: State, i: nat)
    requires Inv(s) && Enabled(s, Step(i)) && !Registering(s.threads[i])
    ensures LateInv(NotifyStep(s, i))
  {
    NotifyMoves(s, i);
    NotifyCell(s, i);
    NotifyCompletes(s, i);
    assert OwnOk(s, i);
    hide NotifyStep, Moved, HomeInv, LockInv, CellLate;
    OthersOwn(s, NotifyStep(s, i), i);
  }

  lemma StepLate(s: State, a: Action)
    requires Inv(s) && Enabled(s, a)
    ensures LateInv(Next(s, a))
  {
    hide RegisterStep, NotifyStep, HomeInv;
    match a
    case Step(i) => if Registering(s.threads[i]) { RegisterLate(s, i); } else { NotifyLate(s, i); }
    case Register(i) => assert ThreadOk(s, i); OthersOwn(s, Next(s, a), i);
    case Notify(i) => assert ThreadOk(s, i); OthersOwn(s, Next(s, a), i);
    case _ => forall j | j in s.threads ensures OwnOk(Next(s, a), j) { assert OwnOk(s, j); }
  }

  lemma StepInv(s: State, a: Action)
    requires Inv(s) && Enabled(s, a)
    ensures Inv(Next(s, a))
  {
    StepLock(s, a);
    StepHome(s, a);
    StepLate(s, a);
    hide LockInv, HomeInv, LateInv, Next;
  }

  lemma {:induction false} RunInv(s: State, acts: seq<Action>)
    requires Inv(s)
    ensures Inv(Exec(s, acts))
    decreases |acts|
  {
    hide Inv, Next;
    if acts != [] {
      if Enabled(s, acts[0]) {
        StepInv(s, acts[0]);
        RunInv(Next(s, acts[0]), acts[1..]);
      } else {
        RunInv(s, acts[1..]);
      }
    }
  }

  // ----- the theorems -----

  /** About to read or write the cell. */
  predicate TouchesCell(pc: Pc) { pc.RegStore? || pc.RegTake? || pc.NotTake? }

  /** No assertion and no `unwrap` fails, and no two threads are ever about to touch the cell. */
  lemma ExclusiveAccess(ts: set<nat>, cs: set<nat>, acts: seq<Action>)
    ensures var s := Exec(Init(ts, cs), acts);
            && !s.fault
            && forall i, j :: i in s.threads && j in s.threads && i != j && TouchesCell(s.threads[i]) ==>
                 !TouchesCell(s.threads[j])
  {
    InitInv(ts, cs);
    RunInv(Init(ts, cs), acts);
    var s := Exec(Init(ts, cs), acts);
    forall i, j | i in s.threads && j in s.threads && i != j && TouchesCell(s.threads[i])
      ensures !TouchesCell(s.threads[j])
    {
      assert ThreadOk(s, i) && ThreadOk(s, j);
    }
  }

  /** The threads that hold a handle. */
  function Holders(s: State, t: Task): set<nat> {
    set i | i in s.threads && HandOf(s.threads[i]) == Some(t)
  }

  /** Every handle ever registered is in exactly one place, and notified at most once. */
  lemma HandlesConserved(ts: set<nat>, cs: set<nat>, acts: seq<Action>, t: Task)
    ensures var s := Exec(Init(ts, cs), acts);
            |Holders(s, t)| + (if s.cell == Some(t) then 1 else 0)
            + s.notified[t] + s.replaced[t] + s.dropped[t] == if t < s.issued then 1 else 0
  {
    InitInv(ts, cs);
    RunInv(Init(ts, cs), acts);
    var s := Exec(Init(ts, cs), acts);
    assert HomeOk(s, t);
    forall i | i in Holders(s, t) ensures t in s.home && s.home[t] == Hand(i) { assert HandOk(s, i); }
    if t in s.home && s.home[t].Hand? {
      assert Holders(s, t) == {s.home[t].i};
    } else {
      assert Holders(s, t) == {};
    }
  }

  /** The thread will call `Task::notify` on the handle it holds. */
  predicate AboutToNotify(pc: Pc, t: Task) { pc == NotRelease(Some(t)) || (pc.Calling? && pc.t == t) }

  /** What has become, or is about to become, of a handle that was called for. */
  predicate Reached(s: State, t: Task) {
    || t in s.notified
    || (exists i :: i in s.threads && AboutToNotify(s.threads[i], t))
    || (s.cell == Some(t) && exists i :: i in s.threads && s.threads[i].NotTake?)
    || t in s.replaced
    || (s.cell == Some(t) && s.word == 3 && exists i :: i in s.threads && s.threads[i].RegStore?)
    || t in s.dropped
  }

  /**
   * Once the register call of `t` has returned, a later `notify` never leaves `t` behind: it has
   * been notified, is in a thread's hand, is about to be taken, or gave way to another register.
   */
  lemma NoLostWakeUp(ts: set<nat>, cs: set<nat>, acts: seq<Action>, t: Task)
    ensures var s := Exec(Init(ts, cs), acts);
            t in s.late ==> t in s.completed && Reached(s, t)
  {
    InitInv(ts, cs);
    RunInv(Init(ts, cs), acts);
    LateReached(Exec(Init(ts, cs), acts), t);
  }

  lemma LateReached(s: State, t: Task)
    requires Inv(s)
    ensures t in s.late ==> t in s.completed && Reached(s, t)
  {
    assert HomeOk(s, t);
    if t in s.late && s.home[t].Hand? { assert OwnOk(s, s.home[t].i); }
  }

  // ----- one consumer that goes to sleep -----

  /** The register calls of the single consumer `c`: the last handle is never replaced, none is dropped. */
  predicate LastKept(s: State, c: nat) {
    && s.consumers == {c} && c in s.threads
    && (forall t :: t in s.home ==> s.home[t] != Dropped)
    && (s.issued > 0 ==> s.issued - 1 in s.home && s.home[s.issued - 1] != Replaced)
    && (OwnTask(s.threads[c]).Some? ==> s.issued > 0 && OwnTask(s.threads[c]).value == s.issued - 1)
    && (s.issued > 0 && OwnTask(s.threads[c]) == None ==> s.issued - 1 in s.completed)
  }

  /** It sleeps on its last handle; once there is work, that one has been called for or is about to be. */
  predicate AsleepOk(s: State, c: nat)
    requires c in s.threads
  {
    s.asleep.Some? ==>
      && OwnTask(s.threads[c]) == None && s.issued > 0 && s.asleep.value == s.issued - 1
      && (s.pending > 0 && s.asleep.value !in s.late ==>
            s.raiser.Some? && s.raiser.value in s.threads && s.threads[s.raiser.value].FetchOr?)
  }

  predicate ClientInv(s: State, c: nat) { LastKept(s, c) && AsleepOk(s, c) }

  lemma RegisterHomes(s: State, i: nat, c: nat)
    requires Inv(s) && LastKept(s, c) && Enabled(s, Step(i)) && Registering(s.threads[i])
    ensures var s' := RegisterStep(s, i);
            && i == c && s'.home.Keys == s.home.Keys && s'.issued == s.issued && s'.home[s.issued - 1] != Replaced
            && forall t :: t in s.home ==> s'.home[t] != Dropped
  {
    assert ThreadOk(s, i) && HandOk(s, i);
    if s.owner.Some? { assert ThreadOk(s, s.owner.value); }
    if s.cell.Some? { assert HomeOk(s, s.cell.value); }
    hide HomeInv, LateInv;
    match s.threads[i]
    case RegCas(_) =>
    case RegStore(_) =>
    case RegRelease(_) =>
    case RegTake(_) =>
    case RegSwap(_) =>
  }

  lemma RegisterOwn(s: State, i: nat)
    requires LockInv(s) && Enabled(s, Step(i)) && Registering(s.threads[i])
    ensures var s', o := RegisterStep(s, i), OwnTask(s.threads[i]);
            && s'.consumers == s.consumers && i in s'.threads && s'.asleep == s.asleep && o.Some?
            && (OwnTask(s'.threads[i]) == o || (OwnTask(s'.threads[i]) == None && o.value in s'.completed))
  {
    match s.threads[i]
    case RegCas(_) =>
    case RegStore(_) =>
    case RegRelease(_) =>
    case RegTake(_) =>
    case RegSwap(_) =>
  }

  lemma RegisterClient(s: State, i: nat, c: nat)
    requires Inv(s) && ClientInv(s, c) && Enabled(s, Step(i)) && Registering(s.threads[i])
    ensures ClientInv(RegisterStep(s, i), c)
  {
    RegisterHomes(s, i, c);
    RegisterOwn(s, i);
    hide RegisterStep, Inv, OwnTask;
  }

  lemma NotifyHomes(s: State, i: nat)
    requires Inv(s) && Enabled(s, Step(i)) && !Registering(s.threads[i])
    ensures var s' := NotifyStep(s, i);
            && s'.home.Keys == s.home.Keys && s'.issued == s.issued
            && forall t :: t in s.home ==> s'.home[t] == s.home[t] || s'.home[t] == Hand(i) || s'.home[t] == Notified
  {
    hide FetchOrNotifying, FetchAndNotNotifying;
    assert ThreadOk(s, i) && HandOk(s, i);
    if s.cell.Some? { assert HomeOk(s, s.cell.value); }
    hide HomeInv, LateInv, LockInv, ThreadOk;
  }

  lemma NotifyOwn(s: State, i: nat, c: nat)
    requires Enabled(s, Step(i)) && !Registering(s.threads[i]) && c in s.threads
    ensures var s', o := NotifyStep(s, i), OwnTask(s.threads[c]);
            && s'.consumers == s.consumers && c in s'.threads && s.completed <= s'.completed
            && (OwnTask(s'.threads[c]) == o || (o.Some? && OwnTask(s'.threads[c]) == None && o.value in s'.completed))
  {
    hide FetchOrNotifying, FetchAndNotNotifying;
    match s.threads[i]
    case FetchOr =>
    case NotTake =>
    case NotRelease(_) =>
    case Calling(_, _) =>
  }

  lemma NotifyKeepsLast(s: State, i: nat, c: nat)
    requires Inv(s) && LastKept(s, c) && Enabled(s, Step(i)) && !Registering(s.threads[i])
    ensures LastKept(NotifyStep(s, i), c)
  {
    NotifyHomes(s, i);
    NotifyOwn(s, i, c);
    hide NotifyStep, Inv, OwnTask;
  }

  lemma NotifyKeepsAsleep(s: State, i: nat, c: nat)
    requires ClientInv(s, c) && Enabled(s, Step(i)) && !Registering(s.threads[i])
    ensures AsleepOk(NotifyStep(s, i), c)
  {
    hide FetchOrNotifying, FetchAndNotNotifying;
    match s.threads[i]
    case FetchOr =>
    case NotTake =>
    case NotRelease(_) =>
    case Calling(_, _) =>
  }

  lemma StepClient(s: State, a: Action, c: nat)
    requires Inv(s) && ClientInv(s, c) && Enabled(s, a)
    ensures ClientInv(Next(s, a), c)
  {
    hide RegisterStep, NotifyStep, Inv;
    match a
    case Step(i) =>
      if Registering(s.threads[i]) {
        RegisterClient(s, i, c);
      } else {
        NotifyKeepsLast(s, i, c);
        NotifyKeepsAsleep(s, i, c);
      }
    case _ =>
  }

  lemma {:induction false} RunClient(s: State, acts: seq<Action>, c: nat)
    requires Inv(s) && ClientInv(s, c)
    ensures Inv(Exec(s, acts)) && ClientInv(Exec(s, acts), c)
    decreases |acts|
  {
    hide Inv, ClientInv, Next;
    if acts != [] {
      if Enabled(s, acts[0]) {
        StepInv(s, acts[0]);
        StepClient(s, acts[0], c);
        RunClient(Next(s, acts[0]), acts[1..], c);
      } else {
        RunClient(s, acts[1..], c);
      }
    }
  }

  /**
   * Leave-work-then-notify against register-then-look, in any number of rounds: when every call
   * has returned and work is left, a consumer that went to sleep has had the handle that it
   * sleeps on notified, exactly once.
   */
  lemma NeverStranded(ts: set<nat>, c: nat, acts: seq<Action>)
    requires c in ts
    ensures var s := Exec(Init(ts, {c}), acts);
            s.asleep.Some? && s.pending > 0 && (forall i :: i in s.threads ==> s.threads[i] == Resting) ==>
              s.notified[s.asleep.value] == 1 && Enabled(s, Rouse)
  {
    InitInv(ts, {c});
    RunClient(Init(ts, {c}), acts, c);
    var s := Exec(Init(ts, {c}), acts);
    if s.asleep.Some? {
      LateReached(s, s.asleep.value);
      assert HomeOk(s, s.asleep.value);
    }
  }

  /** With a single consumer, no register call ever loses its handle to another one in progress. */
  lemma SingleConsumerDropsNothing(ts: set<nat>, c: nat, acts: seq<Action>, t: Task)
    requires c in ts
    ensures t !in Exec(Init(ts, {c}), acts).dropped
  {
    InitInv(ts, {c});
    RunClient(Init(ts, {c}), acts, c);
    assert HomeOk(Exec(Init(ts, {c}), acts), t);
  }

  lemma {:induction false} ExecSnoc(s: State, acts: seq<Action>, more: seq<Action>)
    ensures Exec(s, acts + more) == Exec(Exec(s, acts), more)
    decreases |acts|
  {
    hide Next, Enabled;
    if acts == [] {
      assert [] + more == more;
    } else {
      assert (acts + more)[1..] == acts[1..] + more;
      ExecSnoc(if Enabled(s, acts[0]) then Next(s, acts[0]) else s, acts[1..], more);
    }
  }

  lemma OneStep(s: State, acts: seq<Action>, i: nat)
    requires i < |acts| && Enabled(s, acts[i])
    ensures Exec(s, acts[i..]) == Exec(Next(s, acts[i]), acts[i + 1..])
  {
    assert acts[i..][0] == acts[i] && acts[i..][1..] == acts[i + 1..];
  }

  /** What a consumer that sleeps may meet: an earlier notifier is still inside `notify` and holds the lock. */
  predicate SleepsDuringNotify(s: State, i: nat) {
    s.asleep.Some? && i in s.threads && s.threads[i] == NotTake && s.word == NOTIFYING
  }

  /** Thread 1 leaves work and takes the lock on the cell; the consumer 0 registers, finds the work and takes it. */
  function FirstRound(): seq<Action> { [Notify(1), Step(1), Register(0), Step(0), Step(0), Check(0, 1)] }

  /** It registers again, finds nothing and goes to sleep. */
  function SecondRound(): seq<Action> { [Register(0), Step(0), Step(0), Check(0, 0)] }

  function BetweenRounds(): State {
    State(NOTIFYING, None, map[0 := Resting, 1 := NotTake], {0}, 1, 0, 1, None, Some(1), map[0 := Notified],
          multiset{0}, multiset{}, multiset{}, {0}, {}, Some(1), false)
  }

  lemma FirstRoundRun()
    ensures Exec(Init({0, 1}, {0}), FirstRound()) == BetweenRounds()
  {
    var acts := FirstRound();
    var s0 := Init({0, 1}, {0});
    assert s0.threads == map[0 := Resting, 1 := Resting];
    var s1 := Next(s0, acts[0]);
    var s2 := Next(s1, acts[1]);
    assert s2.threads == map[0 := Resting, 1 := NotTake];
    var s3 := Next(s2, acts[2]);
    var s4 := Next(s3, acts[3]);
    var s5 := Next(s4, acts[4]);
    var s6 := Next(s5, acts[5]);
    assert s6 == BetweenRounds();
    OneStep(s0, acts, 0);
    OneStep(s1, acts, 1);
    OneStep(s2, acts, 2);
    OneStep(s3, acts, 3);
    OneStep(s4, acts, 4);
    OneStep(s5, acts, 5);
    assert acts[0..] == acts && acts[6..] == [];
  }

  lemma SecondRoundRun()
    ensures SleepsDuringNotify(Exec(BetweenRounds(), SecondRound()), 1)
  {
    var acts := SecondRound();
    var s0 := BetweenRounds();
    var s1 := Next(s0, acts[0]);
    var s2 := Next(s1, acts[1]);
    var s3 := Next(s2, acts[2]);
    var s4 := Next(s3, acts[3]);
    OneStep(s0, acts, 0);
    OneStep(s1, acts, 1);
    OneStep(s2, acts, 2);
    OneStep(s3, acts, 3);
    assert acts[0..] == acts && acts[4..] == [];
  }

  /** The race that `NeverStranded` has to survive can happen. */
  lemma SleepMayOverlapNotify()
    ensures SleepsDuringNotify(Exec(Init({0, 1}, {0}), FirstRound() + SecondRound()), 1)
  {
    hide *;
    FirstRoundRun();
    SecondRoundRun();
    ExecSnoc(Init({0, 1}, {0}), FirstRound(), SecondRound());
  }
}
