/**
 * The futures-aware semaphore as an interleaving machine: one step per atomic operation
 * (and per access to the non-atomic queue head), any number of waiters and releasing threads.
 *
 * A waiter is one `Waiter` value together with the single task that drives it; its node is
 * named by the same number.  A thread that calls `release_one` is named by its own number.
 */
module SemaphoreMachine {
  import opened Wrappers

  /** A queue node: the semaphore's stub or the node of a waiter. */
  datatype Ref = Stub | Node(w: nat)

  /** The decoded value of the atomic word `Semaphore::state`; `SemaphoreWord` gives its bits. */
  datatype Word = Num(permits: nat) | Tail(tail: Ref)

  datatype NodeState = Idle | Queued | QueuedWaiting | Assigned

  /** Where a `poll_permit` call is: the atomic operation it is about to make. */
  datatype PollPc =
    | Out
    | PollCas(curr: Word, strong: bool, reg: bool)
    | LoadNodeState(curr: Word)
    | CasNodeState(curr: Word, seen: NodeState)
    | ClearNext(curr: Word)
    | LinkPrev(prev: Ref, pos: nat)
    | Revert

  /** Who may reach a waiter's node besides its task: nobody, the pushing call, the queue, the popping call. */
  datatype Loc = Away | Pushing | InQueue(pos: nat) | Popped

  /**
   * `state` is the field of the node and `pc` the control state of its task's call.
   * `waiting` is what the task knows: a call returned `NotReady` and neither `acquire` nor a
   * cancellation has succeeded since.  `loc` is a history variable.
   */
  datatype Waiter = Waiter(state: NodeState, pc: PollPc, waiting: bool, loc: Loc)

  /** Where the call that holds `rx_lock` is, inside `release_n`, `pop`, `push_stub` or `notify`. */
  datatype RelPc =
    | ReadHead
    | LoadNext(h: Ref)
    | LoadWord
    | AddPermits(curr: Word)
    | SkipStub(nx: Ref)
    | LoadNext2(h: Ref)
    | TakeHead(h: Ref, nx: Ref)
    | LoadTail(h: Ref)
    | ClearStub(h: Ref)
    | SwapTail(h: Ref)
    | LinkStub(h: Ref, prev: Ref, pos: nat)
    | Recheck(h: Ref)
    | Notify(w: nat, seen: NodeState)
    | FetchSub

  /** `batch` is `rem` of `release_one`; `n` is what `release_n` still has to deliver (0 once it returned). */
  datatype Rel = NoCall | Busy(batch: nat, n: nat, pc: RelPc)

  /**
   * The first six fields are the memory of the semaphore and of its callers.  The others are
   * history variables: permit counters, the sequence `hist` of every node ever made the tail
   * (of which `front` nodes have left the queue), the waiters in the order of their push CAS
   * and in the order `pop` returned them, and `fault`, set by any panic or failed assertion.
   */
  datatype State = State(
    word: Word, head: Ref, rx: nat, next: map<Ref, Option<Ref>>,
    waiters: map<nat, Waiter>, rel: map<nat, Rel>,
    initial: nat, released: nat, obtained: nat,
    hist: seq<Ref>, front: nat, stubPos: Option<nat>, holder: Option<nat>,
    pushed: seq<nat>, served: seq<nat>, fault: bool)

  datatype Action =
    | PollCall(w: nat, reg: bool)
    | PollStep(w: nat)
    | Acquire(w: nat)
    | Cancel(w: nat)
    | ReleaseCall(r: nat)
    | ReleaseStep(r: nat)

  // ----- reading and writing the memory -----

  /** The `next` field of a node; a node not in the map has never had it written. */
  function NextOf(s: State, x: Ref): Option<Ref> {
    if x in s.next then s.next[x] else None
  }

  function SetNext(s: State, x: Ref, nx: Option<Ref>): State {
    s.(next := s.next[x := nx])
  }

  function SetWaiter(s: State, w: nat, x: Waiter): State {
    s.(waiters := s.waiters[w := x])
  }

  function SetRel(s: State, r: nat, x: Rel): State {
    s.(rel := s.rel[r := x])
  }

  function Fault(s: State): State { s.(fault := true) }

  // ----- poll_permit -----

  /** The loop head of `poll_permit` with `curr` just read: what the call does up to its next atomic operation. */
  function Decide(curr: Word, strong: bool, reg: bool): PollPc {
    if curr.Num? || strong then PollCas(curr, strong, reg)
    else if reg then LoadNodeState(curr)
    else Out
  }

  /** The word after `acquire_permit`, for a word that holds `k >= 1` permits. */
  function TakeOne(k: nat): Word
    requires k >= 1
  {
    if k == 1 then Tail(Stub) else Num(k - 1)
  }

  /** The CAS that takes a permit. */
  function TakePermit(s: State, w: nat, k: nat, strong: bool): State
    requires w in s.waiters && k >= 1
  {
    SetWaiter(s, w, s.waiters[w].(pc := if strong then Revert else Out)).(
      word := TakeOne(k), obtained := s.obtained + 1)
  }

  /** The CAS that makes the waiter's node the tail, after `prev`. */
  function PushNode(s: State, w: nat, prev: Ref): State
    requires w in s.waiters
  {
    SetWaiter(s, w, s.waiters[w].(pc := LinkPrev(prev, |s.hist|), loc := InQueue(|s.hist|))).(
      word := Tail(Node(w)), hist := s.hist + [Node(w)], pushed := s.pushed + [w])
  }

  function PollNext(s: State, w: nat): State
    requires w in s.waiters
  {
    var x := s.waiters[w];
    match x.pc
    case Out => s
    case PollCas(curr, strong, reg) =>
      if curr == Num(0) || (curr.Tail? && !strong) then Fault(s)
      else if s.word != curr then
        SetWaiter(s, w, x.(pc := Decide(s.word, strong, reg)))
      else if curr.Num? then
        TakePermit(s, w, curr.permits, strong)
      else
        PushNode(s, w, curr.tail)
    case LoadNodeState(curr) =>
      SetWaiter(s, w, x.(pc := CasNodeState(curr, x.state)))
    case CasNodeState(curr, seen) =>
      if seen != Idle && seen != Queued then Fault(s)
      else if x.state != seen then SetWaiter(s, w, x.(pc := CasNodeState(curr, x.state)))
      else if seen == Queued then SetWaiter(s, w, x.(state := QueuedWaiting, pc := Out, waiting := true))
      else SetWaiter(s, w, x.(state := QueuedWaiting, pc := ClearNext(curr), loc := Pushing))
    case ClearNext(curr) =>
      SetNext(SetWaiter(s, w, x.(pc := PollCas(curr, true, true))), Node(w), None)
    case LinkPrev(prev, _) =>
      SetNext(SetWaiter(s, w, x.(pc := Out, waiting := true)), prev, Some(Node(w)))
    case Revert =>
      SetWaiter(s, w, x.(state := Idle, pc := Out, loc := Away))
  }

  // ----- release_one, release_n, pop, push_stub, notify -----

  /** `pop` once the next pointer of a head that is not the stub has been read. */
  function AfterNext(h: Ref, nx: Option<Ref>): RelPc {
    if nx.Some? then TakeHead(h, nx.value) else LoadTail(h)
  }

  /** The head of the inner loop of `pop`. */
  function CheckAdd(curr: Word): RelPc {
    if curr.Tail? && curr.tail != Stub then ReadHead else AddPermits(curr)
  }

  /** `notify` accepted: waiter `w` has a permit and `release_n` one less to deliver. */
  function Assign(s: State, r: nat, w: nat, batch: nat, n: nat): State
    requires w in s.waiters && n >= 1
  {
    SetRel(SetWaiter(s, w, s.waiters[w].(state := Assigned, loc := Away)), r,
           Busy(batch, n - 1, if n == 1 then FetchSub else ReadHead))
  }

  function ReleaseNext(s: State, r: nat): State
    requires r in s.rel && s.rel[r].Busy?
  {
    var Busy(batch, n, pc) := s.rel[r];
    match pc
    case ReadHead => SetRel(s, r, Busy(batch, n, LoadNext(s.head)))
    case LoadNext(h) =>
      var nx := NextOf(s, h);
      var pc1 := if h == Stub then (if nx.Some? then SkipStub(nx.value) else LoadWord) else AfterNext(h, nx);
      SetRel(s, r, Busy(batch, n, pc1))
    case LoadWord => SetRel(s, r, Busy(batch, n, CheckAdd(s.word)))
    case AddPermits(curr) =>
      if n == 0 || (curr.Tail? && curr.tail != Stub) then Fault(s)
      else if s.word != curr then SetRel(s, r, Busy(batch, n, CheckAdd(s.word)))
      else
        SetRel(s, r, Busy(batch, 0, FetchSub)).(word := Num(if curr.Num? then curr.permits + n else n))
    case SkipStub(nx) =>
      SetRel(s, r, Busy(batch, n, LoadNext2(nx))).(head := nx, front := s.front + 1, stubPos := None)
    case LoadNext2(h) => SetRel(s, r, Busy(batch, n, AfterNext(h, NextOf(s, h))))
    case TakeHead(h, nx) =>
      if h == Stub || h.w !in s.waiters then Fault(s)
      else
        SetRel(SetWaiter(s, h.w, s.waiters[h.w].(loc := Popped)), r, Busy(batch, n, Notify(h.w, QueuedWaiting))).(
          head := nx, front := s.front + 1, served := s.served + [h.w])
    case LoadTail(h) =>
      if s.word.Num? then Fault(s)
      else SetRel(s, r, Busy(batch, n, if s.word.tail != h then ReadHead else ClearStub(h)))
    case ClearStub(h) => SetNext(SetRel(s, r, Busy(batch, n, SwapTail(h))), Stub, None)
    case SwapTail(h) =>
      if s.word.Num? || s.word.tail == Stub then Fault(s)
      else
        SetRel(s, r, Busy(batch, n, LinkStub(h, s.word.tail, |s.hist|))).(
          word := Tail(Stub), hist := s.hist + [Stub], stubPos := Some(|s.hist|))
    case LinkStub(h, prev, _) =>
      SetNext(SetRel(s, r, Busy(batch, n, Recheck(h))), prev, Some(Stub))
    case Recheck(h) =>
      var nx := NextOf(s, h);
      SetRel(s, r, Busy(batch, n, if nx.Some? then TakeHead(h, nx.value) else ReadHead))
    case Notify(w, seen) =>
      if w !in s.waiters || seen == Idle || seen == Assigned || n == 0 then Fault(s)
      else
        var x := s.waiters[w];
        if x.state != seen then SetRel(s, r, Busy(batch, n, Notify(w, x.state)))
        else if seen == QueuedWaiting then
          Assign(s, r, w, batch, n)
        else
          SetRel(SetWaiter(s, w, x.(state := Idle, loc := Away)), r, Busy(batch, n, ReadHead))
    case FetchSub =>
      if s.rx < batch then Fault(s)
      else if s.rx == batch then SetRel(s, r, NoCall).(rx := 0, holder := None)
      else SetRel(s, r, Busy(s.rx - batch, s.rx - batch, ReadHead)).(rx := s.rx - batch)
  }

  // ----- the machine -----

  /** Which actions can happen: the client contract, and nothing at all after a panic. */
  predicate Enabled(s: State, a: Action) {
    && !s.fault
    && match a
       case PollCall(w, _) => w in s.waiters && s.waiters[w].pc == Out && !s.waiters[w].waiting
       case PollStep(w) => w in s.waiters && s.waiters[w].pc != Out
       case Acquire(w) => w in s.waiters && s.waiters[w].pc == Out
       case Cancel(w) =>
         w in s.waiters && s.waiters[w].pc == Out && s.waiters[w].waiting && s.waiters[w].state == QueuedWaiting
       case ReleaseCall(r) => r in s.rel && s.rel[r] == NoCall
       case ReleaseStep(r) => r in s.rel && s.rel[r].Busy?
  }

  function Next(s: State, a: Action): State
    requires Enabled(s, a)
  {
    match a
    case PollCall(w, reg) =>
      SetWaiter(s, w, s.waiters[w].(pc := Decide(s.word, false, reg)))
    case PollStep(w) => PollNext(s, w)
    case Acquire(w) =>
      if s.waiters[w].state == Assigned then
        SetWaiter(s, w, s.waiters[w].(state := Idle, waiting := false)).(obtained := s.obtained + 1)
      else s
    case Cancel(w) => SetWaiter(s, w, s.waiters[w].(state := Queued, waiting := false))
    case ReleaseCall(r) =>
      var s1 := s.(rx := s.rx + 1, released := s.released + 1);
      if s.rx == 0 then SetRel(s1, r, Busy(1, 1, ReadHead)).(holder := Some(r)) else s1
    case ReleaseStep(r) => ReleaseNext(s, r)
  }

  /** `Semaphore::new(permits)` with unused waiters `ws` and idle threads `rs`. */
  function Init(permits: nat, ws: set<nat>, rs: set<nat>): State
    requires permits > 0
  {
    State(Num(permits), Stub, 0, map[],
          map w | w in ws :: Waiter(Idle, Out, false, Away), map r | r in rs :: NoCall,
          permits, 0, 0, [Stub], 0, Some(0), None, [], [], false)
  }

  /** The run of a list of actions; those not enabled when their turn comes do nothing. */
  function Exec(s: State, acts: seq<Action>): State
    decreases |acts|
  {
    if acts == [] then s
    else Exec(if Enabled(s, acts[0]) then Next(s, acts[0]) else s, acts[1..])
  }
}
