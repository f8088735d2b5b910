/** The bits of `Semaphore::state`: how a `usize` holds a permit count or a pointer, and when it cannot. */
module SemaphoreWord {
  import opened Wrappers
  import opened SemaphoreMachine
  import opened SemaphoreInvariant
  import opened SemaphoreRuns
  import opened SemaphoreTheorems
  import opened SemaphoreProgress

  /** One more than the largest `usize`; a word of 64 bits. */
  const USIZE: nat := 0x1_0000_0000_0000_0000
  const NUM_FLAG: nat := 1

  /** Where the nodes are: at different even addresses other than null. */
  ghost predicate Layout(addr: map<Ref, nat>) {
    && Stub in addr
    && (forall x :: x in addr ==> 0 < addr[x] < USIZE && addr[x] % 2 == 0)
    && (forall x, y :: x in addr && y in addr && addr[x] == addr[y] ==> x == y)
  }

  /** `(permits << NUM_SHIFT) | NUM_FLAG`: the bit shifted out at the top is lost. */
  function FromPermits(permits: nat): nat { permits * 2 % USIZE + NUM_FLAG }

  /** A word that a `usize` can hold as it is meant. */
  predicate Fits(w: Word, addr: map<Ref, nat>) {
    match w
    case Num(k) => 2 * k < USIZE
    case Tail(x) => x in addr
  }

  function Encode(w: Word, addr: map<Ref, nat>): nat
    requires Fits(w, addr)
  {
    match w
    case Num(k) => FromPermits(k)
    case Tail(x) => addr[x]
  }

  // ----- what the accessors read -----

  predicate HasAvailablePermits(bits: nat) { bits % 2 == NUM_FLAG }

  function AvailablePermits(bits: nat): nat { if HasAvailablePermits(bits) then bits / 2 else 0 }

  predicate HasWaiter(bits: nat, stub: nat) { !HasAvailablePermits(bits) && bits != stub }

  /** The accessors see through the encoding. */
  lemma AccessorsDecode(w: Word, addr: map<Ref, nat>)
    requires Layout(addr) && Fits(w, addr)
    ensures 0 < Encode(w, addr) < USIZE
    ensures HasAvailablePermits(Encode(w, addr)) <==> w.Num?
    ensures AvailablePermits(Encode(w, addr)) == if w.Num? then w.permits else 0
    ensures HasWaiter(Encode(w, addr), addr[Stub]) <==> w.Tail? && w.tail != Stub
    ensures Encode(w, addr) == addr[Stub] <==> w == Tail(Stub)
  {
  }

  /** Comparing raw words is comparing what they mean: a raw compare-and-swap cannot be fooled. */
  lemma EncodeInjective(v: Word, w: Word, addr: map<Ref, nat>)
    requires Layout(addr) && Fits(v, addr) && Fits(w, addr)
    ensures Encode(v, addr) == Encode(w, addr) <==> v == w
  {
    AccessorsDecode(v, addr);
    AccessorsDecode(w, addr);
  }

  /** `new(permits)` makes a semaphore with `permits` permits exactly if the top bit of `permits` is clear. */
  lemma NewRoundTrips(permits: nat)
    requires permits < USIZE
    ensures AvailablePermits(FromPermits(permits)) == permits <==> permits < USIZE / 2
  {
    if permits >= USIZE / 2 {
      assert permits * 2 % USIZE == permits * 2 - USIZE;
    }
  }

  /**
   * The smallest count that is lost: the word is in number mode with no permit, which
   * `acquire_permit` asserts against.
   */
  lemma NewOverflows()
    ensures AvailablePermits(FromPermits(USIZE / 2)) == 0 && FromPermits(USIZE / 2) == 1
  {
    assert USIZE / 2 * 2 % USIZE == 0;
  }

  /** Adding shifted counts modulo the word size is shifting the sum. */
  lemma SumWraps(k: nat, n: nat)
    requires 2 * k < USIZE && n < USIZE
    ensures (FromPermits(k) + n * 2 % USIZE) % USIZE == FromPermits(k + n)
  {
    var m := if 2 * n < USIZE then 2 * n else 2 * n - USIZE;
    Reduced(2 * n, if 2 * n < USIZE then 0 else 1, m);
    Reduced(2 * k, 0, 2 * k);
    var q := if 2 * k + m < USIZE then 0 else 1;
    Reduced(2 * k + m + 1, q, 2 * k + m + 1 - q * USIZE);
    Reduced(2 * (k + n), if 2 * n < USIZE then q else q + 1, 2 * k + m - q * USIZE);
  }

  lemma Reduced(x: nat, q: nat, r: int)
    requires q <= 2 && 0 <= r < USIZE && x == q * USIZE + r
    ensures x % USIZE == r
  {
  }

  class SemState {
    var bits: nat

    constructor (permits: nat)
      ensures bits == FromPermits(permits)
    {
      bits := permits * 2 % USIZE + NUM_FLAG;
    }

    constructor NewPtr(tail: nat)
      ensures bits == tail
    {
      bits := tail;
    }

    /** `acquire_permit`, on a word that is not the forbidden "no permits" number. */
    method AcquirePermit(stub: nat, ghost w: Word, ghost addr: map<Ref, nat>) returns (ok: bool)
      requires Layout(addr) && Fits(w, addr) && bits == Encode(w, addr) && stub == addr[Stub] && w != Num(0)
      modifies this
      ensures ok == w.Num?
      ensures w.Num? ==> Fits(TakeOne(w.permits), addr) && bits == Encode(TakeOne(w.permits), addr)
      ensures w.Tail? ==> bits == old(bits)
    {
      if !HasAvailablePermits(bits) { return false; }
      assert bits != 1;
      bits := bits - 2;
      if bits == NUM_FLAG { bits := stub; }
      return true;
    }

    /**
     * `release_permits`, on the stub or a number.  The sum is exact as long as it fits; beyond
     * that it is what `new` would have made of the count.
     */
    method ReleasePermits(permits: nat, stub: nat, ghost w: Word, ghost addr: map<Ref, nat>)
      requires Layout(addr) && Fits(w, addr) && bits == Encode(w, addr) && stub == addr[Stub]
      requires 0 < permits < USIZE && (w.Num? || w == Tail(Stub))
      modifies this
      ensures var sum := if w.Num? then w.permits + permits else permits;
              && bits == FromPermits(sum)
              && (2 * sum < USIZE ==> bits == Encode(Num(sum), addr))
    {
      AccessorsDecode(w, addr);
      hide Layout, HasWaiter, AvailablePermits;
      if bits == stub {
        bits := permits * 2 % USIZE + NUM_FLAG;
        return;
      }
      assert HasAvailablePermits(bits);
      SumWraps(w.permits, permits);
      bits := (bits + permits * 2 % USIZE) % USIZE;
    }

    /** `set_waiter`. */
    method SetWaiter(waiter: nat, ghost x: Ref, ghost addr: map<Ref, nat>)
      requires Layout(addr) && x in addr && waiter == addr[x]
      modifies this
      ensures bits == Encode(Tail(x), addr)
    {
      assert waiter % 2 == 0;
      bits := waiter;
    }
  }

  // ----- over whole runs -----

  /** A word that some call has read: no larger a count than the initial one, no node that is not a waiter's. */
  predicate Plausible(s: State, w: Word) {
    match w
    case Num(k) => k <= s.initial
    case Tail(Stub) => true
    case Tail(Node(x)) => x in s.waiters
  }

  /** The word that a `poll_permit` call will compare with. */
  function PollSeen(pc: PollPc): Option<Word> {
    match pc
    case PollCas(curr, _, _) => Some(curr)
    case LoadNodeState(curr) => Some(curr)
    case CasNodeState(curr, _) => Some(curr)
    case ClearNext(curr) => Some(curr)
    case _ => None
  }

  predicate PollPlausible(s: State, w: nat)
    requires w in s.waiters
  {
    var seen := PollSeen(s.waiters[w].pc);
    seen.Some? ==> Plausible(s, seen.value)
  }

  predicate RelPlausible(s: State, r: nat)
    requires r in s.rel
  {
    s.rel[r].Busy? && s.rel[r].pc.AddPermits? ==> Plausible(s, s.rel[r].pc.curr)
  }

  ghost predicate AllPlausible(s: State) {
    && Plausible(s, s.word)
    && (forall w :: w in s.waiters ==> PollPlausible(s, w))
    && (forall r :: r in s.rel ==> RelPlausible(s, r))
  }

  lemma WordPlausible(s: State)
    requires Inv(s) && Bounded(s)
    ensures Plausible(s, s.word)
  {
    assert PlaceOk(s, |s.hist| - 1);
  }

  /** What a step of a polling call leaves in its hands it had before, or has just read. */
  lemma PollSees(s: State, w: nat, v: nat)
    requires Enabled(s, PollStep(w))
    ensures var s' := PollNext(s, w);
            && (v in s'.waiters <==> v in s.waiters) && s'.rel == s.rel && s'.initial == s.initial
            && (v in s.waiters ==>
                  var seen := PollSeen(s'.waiters[v].pc);
                  seen == None || seen == PollSeen(s.waiters[v].pc) || seen == Some(s.word))
  {
    match s.waiters[w].pc
    case PollCas(_, _, _) =>
    case LoadNodeState(_) =>
    case CasNodeState(_, _) =>
    case ClearNext(_) =>
    case LinkPrev(_, _) =>
    case Revert =>
  }

  lemma ReleaseSees(s: State, r: nat, q: nat)
    requires Enabled(s, ReleaseStep(r))
    ensures var s' := ReleaseNext(s, r);
            && (q in s'.rel <==> q in s.rel) && s'.initial == s.initial
            && (q in s.rel && s'.rel[q].Busy? && s'.rel[q].pc.AddPermits? ==>
                  || s'.rel[q].pc.curr == s.word
                  || (s.rel[q].Busy? && s.rel[q].pc == s'.rel[q].pc))
  {
    match s.rel[r].pc
    case ReadHead =>
    case LoadNext(_) =>
    case LoadWord =>
    case AddPermits(_) =>
    case SkipStub(_) =>
    case LoadNext2(_) =>
    case TakeHead(_, _) =>
    case LoadTail(_) =>
    case ClearStub(_) =>
    case SwapTail(_) =>
    case LinkStub(_, _, _) =>
    case Recheck(_) =>
    case Notify(_, _) =>
    case FetchSub =>
  }

  lemma StepPlausible(s: State, a: Action, v: nat, q: nat)
    requires AllPlausible(s) && Enabled(s, a)
    ensures var s' := Next(s, a);
            && s'.initial == s.initial
            && (v in s'.waiters <==> v in s.waiters)
            && (v in s.waiters && PollSeen(s'.waiters[v].pc).Some? ==> Plausible(s, PollSeen(s'.waiters[v].pc).value))
            && (q in s'.rel && s'.rel[q].Busy? && s'.rel[q].pc.AddPermits? ==> Plausible(s, s'.rel[q].pc.curr))
  {
    if v in s.waiters { assert PollPlausible(s, v); }
    if q in s.rel { assert RelPlausible(s, q); }
    match a
    case PollStep(w) => PollSees(s, w, v); hide PollNext, Plausible;
    case ReleaseStep(r) => ReleaseSees(s, r, q); PcKept(s, r, v); hide ReleaseNext, Plausible;
    case _ => hide Plausible;
  }

  lemma StepAllPlausible(s: State, a: Action)
    requires AllPlausible(s) && Enabled(s, a) && Plausible(Next(s, a), Next(s, a).word)
    ensures AllPlausible(Next(s, a)) && Next(s, a).waiters.Keys == s.waiters.Keys
  {
    hide Next;
    var s' := Next(s, a);
    forall v ensures v in s'.waiters <==> v in s.waiters { StepPlausible(s, a, v, 0); }
    forall v | v in s'.waiters ensures PollPlausible(s', v) { StepPlausible(s, a, v, 0); }
    forall q | q in s'.rel ensures RelPlausible(s', q) { StepPlausible(s, a, 0, q); }
  }

  lemma {:induction false} RunPlausible(s: State, acts: seq<Action>)
    requires Inv(s) && Bounded(s) && Disciplined(s, acts) && AllPlausible(s)
    ensures AllPlausible(Exec(s, acts)) && Exec(s, acts).waiters.Keys == s.waiters.Keys
    decreases |acts|
  {
    hide Inv, Next, Bounded, AllPlausible;
    if acts != [] {
      if Enabled(s, acts[0]) {
        StepInv(s, acts[0]);
        StepBounded(s, acts[0]);
        WordPlausible(Next(s, acts[0]));
        StepAllPlausible(s, acts[0]);
        RunPlausible(Next(s, acts[0]), acts[1..]);
      } else {
        RunPlausible(s, acts[1..]);
      }
    }
  }

  lemma PlausibleFits(s: State, w: Word, addr: map<Ref, nat>)
    requires Plausible(s, w) && 2 * s.initial < USIZE
    requires Stub in addr && forall v :: v in s.waiters ==> Node(v) in addr
    ensures Fits(w, addr)
  {
  }

  /** The raw comparison of `seen` with the semaphore's word is right. */
  ghost predicate ComparesRight(s: State, seen: Word, addr: map<Ref, nat>) {
    && Fits(s.word, addr) && Fits(seen, addr)
    && (Encode(s.word, addr) == Encode(seen, addr) <==> s.word == seen)
  }

  /**
   * In every run in which each release gives back an obtained permit, if the initial count fits
   * and the nodes are laid out as allocators do, then every word fits its `usize`, and every
   * compare-and-swap on the raw bits succeeds exactly when it should.
   */
  lemma RawCasExact(permits: nat, ws: set<nat>, rs: set<nat>, acts: seq<Action>, addr: map<Ref, nat>)
    requires 0 < permits < USIZE / 2 && Disciplined(Init(permits, ws, rs), acts)
    requires Layout(addr) && forall w :: w in ws ==> Node(w) in addr
    ensures var s := Exec(Init(permits, ws, rs), acts);
            && (forall w :: w in s.waiters && s.waiters[w].pc.PollCas? ==> ComparesRight(s, s.waiters[w].pc.curr, addr))
            && (forall r :: r in s.rel && s.rel[r].Busy? && s.rel[r].pc.AddPermits? ==>
                  ComparesRight(s, s.rel[r].pc.curr, addr))
  {
    var s0 := Init(permits, ws, rs);
    InitInv(permits, ws, rs);
    assert AllPlausible(s0);
    RunPlausible(s0, acts);
    InitialKept(s0, acts);
    var s := Exec(s0, acts);
    assert s.waiters.Keys == ws by { assert s0.waiters.Keys == ws; }
    hide Exec, Inv, Encode, Bounded, Disciplined, Plausible, Fits;
    PlausibleFits(s, s.word, addr);
    forall w | w in s.waiters && s.waiters[w].pc.PollCas? ensures ComparesRight(s, s.waiters[w].pc.curr, addr) {
      assert PollPlausible(s, w);
      PlausibleFits(s, s.waiters[w].pc.curr, addr);
      EncodeInjective(s.word, s.waiters[w].pc.curr, addr);
    }
    forall r | r in s.rel && s.rel[r].Busy? && s.rel[r].pc.AddPermits?
      ensures ComparesRight(s, s.rel[r].pc.curr, addr)
    {
      assert RelPlausible(s, r);
      PlausibleFits(s, s.rel[r].pc.curr, addr);
      EncodeInjective(s.word, s.rel[r].pc.curr, addr);
    }
  }
}
