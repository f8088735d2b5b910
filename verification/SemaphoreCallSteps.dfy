/**
 * What one step of `poll_permit` or `release_one` does to the memory that calls share, and what
 * the steps of other tasks and threads leave alone.
 */
module SemaphoreCallSteps {
  import opened Wrappers
  import opened SemaphoreMachine
  import opened SemaphoreInvariant
  import opened SemaphoreRuns
  import T = SemaphoreTheorems
  import P = SemaphoreProgress

  /** The memory that calls share. */
  datatype Shared = Shared(word: Word, head: Ref, rx: nat, next: map<Ref, Option<Ref>>, nodes: map<nat, NodeState>)

  function Nodes(ws: map<nat, Waiter>): map<nat, NodeState> { map w | w in ws :: ws[w].state }

  function SharedOf(s: State): Shared { Shared(s.word, s.head, s.rx, s.next, Nodes(s.waiters)) }

  // ----- a caller between two of its own steps -----

  /** Who runs the code: the task that drives a waiter, or a releasing thread. */
  datatype Caller = Task(w: nat) | Thread(r: nat)

  predicate By(a: Action, c: Caller) {
    match a
    case PollCall(w, _) => c == Task(w)
    case PollStep(w) => c == Task(w)
    case Acquire(w) => c == Task(w)
    case Cancel(w) => c == Task(w)
    case ReleaseCall(r) => c == Thread(r)
    case ReleaseStep(r) => c == Thread(r)
  }

  function StepOf(c: Caller): Action { if c.Task? then PollStep(c.w) else ReleaseStep(c.r) }

  /** What others do. */
  predicate NotBy(acts: seq<Action>, c: Caller) { forall a :: a in acts ==> !By(a, c) }

  /** The call is where it was; while it is the one inside `release_one`, nobody else pops. */
  predicate CallKept(s: State, s': State, c: Caller) {
    match c
    case Task(w) =>
      w in s.waiters ==>
        w in s'.waiters && s'.waiters[w].pc == s.waiters[w].pc && s'.waiters[w].waiting == s.waiters[w].waiting
    case Thread(r) =>
      r in s.rel ==> r in s'.rel && s'.rel[r] == s.rel[r] && (s.rel[r].Busy? ==> s'.served == s.served)
  }

  lemma ReleaseKeepsTask(s: State, r: nat, w: nat)
    requires Enabled(s, ReleaseStep(r))
    ensures CallKept(s, ReleaseNext(s, r), Task(w))
  {
    match s.rel[r].pc
    case ReadHead =>
    case LoadNext(_) =>
    case LoadWord =>
    case AddPermits(_) =>
    case SkipStub(_) =>
    case LoadNext2(_) =>
    case TakeHead(_, _) =>
    case LoadTail(_) =>
    case ClearStub(_) =>
    case SwapTail(_) =>
    case LinkStub(_, _, _) =>
    case Recheck(_) =>
    case Notify(_, _) =>
    case FetchSub =>
  }

  lemma ReleaseKeepsThread(s: State, r: nat, q: nat)
    requires Enabled(s, ReleaseStep(r)) && r != q && OneHolder(s)
    ensures CallKept(s, ReleaseNext(s, r), Thread(q))
  {
    match s.rel[r].pc
    case ReadHead =>
    case LoadNext(_) =>
    case LoadWord =>
    case AddPermits(_) =>
    case SkipStub(_) =>
    case LoadNext2(_) =>
    case TakeHead(_, _) =>
    case LoadTail(_) =>
    case ClearStub(_) =>
    case SwapTail(_) =>
    case LinkStub(_, _, _) =>
    case Recheck(_) =>
    case Notify(_, _) =>
    case FetchSub =>
  }

  lemma PollKeeps(s: State, v: nat, c: Caller)
    requires Enabled(s, PollStep(v)) && c != Task(v)
    ensures CallKept(s, PollNext(s, v), c)
  {
    match s.waiters[v].pc
    case PollCas(_, _, _) =>
    case LoadNodeState(_) =>
    case CasNodeState(_, _) =>
    case ClearNext(_) =>
    case LinkPrev(_, _) =>
    case Revert =>
  }

  lemma StepKeeps(s: State, a: Action, c: Caller)
    requires OneHolder(s) && Enabled(s, a) && !By(a, c)
    ensures CallKept(s, Next(s, a), c)
  {
    hide PollNext, ReleaseNext;
    match a
    case PollStep(v) => PollKeeps(s, v, c);
    case ReleaseStep(r) => if c.Task? { ReleaseKeepsTask(s, r, c.w); } else { ReleaseKeepsThread(s, r, c.r); }
    case _ =>
  }

  lemma Alive(s: State)
    requires Inv(s)
    ensures !s.fault && OneHolder(s)
  {
    hide OneHolder;
  }

  /** The operations of the FIFO semaphore: the stub is not part of it. */
  predicate Visible(op: Op) { !op.Quiet? && !op.StubIn? && !op.StubOut? }

  /** Those that the steps of one caller carry out in a run. */
  function OpsBy(s: State, acts: seq<Action>, c: Caller): seq<Op>
    decreases |acts|
  {
    if acts == [] then []
    else if !Enabled(s, acts[0]) then OpsBy(s, acts[1..], c)
    else OpBy(s, acts[0], c) + OpsBy(Next(s, acts[0]), acts[1..], c)
  }

  function OpBy(s: State, a: Action, c: Caller): seq<Op>
    requires Enabled(s, a)
  {
    if a == StepOf(c) && Visible(OpOf(s, a)) then [OpOf(s, a)] else []
  }

  lemma {:induction false} OpsConcat(s: State, acts: seq<Action>, more: seq<Action>, c: Caller)
    ensures Exec(s, acts + more) == Exec(Exec(s, acts), more)
    ensures OpsBy(s, acts + more, c) == OpsBy(s, acts, c) + OpsBy(Exec(s, acts), more, c)
    decreases |acts|
  {
    hide Next, Enabled, OpBy;
    if acts == [] {
      assert [] + more == more;
    } else {
      assert (acts + more)[1..] == acts[1..] + more;
      OpsConcat(if Enabled(s, acts[0]) then Next(s, acts[0]) else s, acts[1..], more, c);
    }
  }

  /** Others leave the call where it is and do nothing in its name. */
  lemma {:induction false} OthersKeep(s: State, acts: seq<Action>, c: Caller)
    requires Inv(s) && NotBy(acts, c)
    ensures CallKept(s, Exec(s, acts), c) && OpsBy(s, acts, c) == []
    decreases |acts|
  {
    hide Inv, Next, Enabled;
    if acts != [] {
      assert acts[0] in acts;
      forall a | a in acts[1..] ensures !By(a, c) { assert a in acts; }
      if Enabled(s, acts[0]) {
        Alive(s);
        StepKeeps(s, acts[0], c);
        T.StepInv(s, acts[0]);
      }
      OthersKeep(if Enabled(s, acts[0]) then Next(s, acts[0]) else s, acts[1..], c);
    }
  }

  lemma OneOp(s: State, a: Action, c: Caller)
    requires Enabled(s, a)
    ensures Exec(s, [a]) == Next(s, a)
    ensures OpsBy(s, [a], c) == OpBy(s, a, c)
  {
    hide Next, Enabled, OpBy;
    assert [a][0] == a && [a][1..] == [];
    assert Exec(Next(s, a), []) == Next(s, a) && OpsBy(Next(s, a), [], c) == [];
  }

  // ----- the task's own steps, as its code makes them -----

  lemma CallFacts(s: State, w: nat)
    requires Inv(s) && w in s.waiters
    ensures !s.fault && PollOk(s, w)
  {
    hide PollOk;
  }

  lemma CasSteps(s: State, w: nat)
    requires !s.fault && w in s.waiters && PollOk(s, w) && s.waiters[w].pc.PollCas?
    ensures var pc, s' := s.waiters[w].pc, Next(s, PollStep(w));
            && Enabled(s, PollStep(w)) && w in s'.waiters && (pc.curr.Tail? ==> pc.strong) && pc.curr != Num(0)
            && (if SharedOf(s).word != pc.curr then
                  SharedOf(s') == SharedOf(s) && s'.waiters[w].pc == Decide(SharedOf(s).word, pc.strong, pc.reg)
                  && !s'.waiters[w].waiting
                  && OpOf(s, PollStep(w)) == Quiet
                else if pc.curr.Num? then
                  SharedOf(s') == SharedOf(s).(word := TakeOne(pc.curr.permits)) && OpOf(s, PollStep(w)) == Take
                  && s'.waiters[w].pc == (if pc.strong then Revert else Out) && !s'.waiters[w].waiting
                else
                  SharedOf(s') == SharedOf(s).(word := Tail(Node(w))) && OpOf(s, PollStep(w)) == Push(w)
                  && s'.waiters[w].pc.LinkPrev? && s'.waiters[w].pc.prev == pc.curr.tail)
  {
    assert Nodes(Next(s, PollStep(w)).waiters) == Nodes(s.waiters);
  }

  lemma LoadSteps(s: State, w: nat)
    requires !s.fault && w in s.waiters && PollOk(s, w) && s.waiters[w].pc.LoadNodeState?
    ensures var x, s' := s.waiters[w], Next(s, PollStep(w));
            && Enabled(s, PollStep(w)) && w in s'.waiters
            && SharedOf(s') == SharedOf(s) && OpOf(s, PollStep(w)) == Quiet
            && s'.waiters[w].pc == CasNodeState(x.pc.curr, x.state)
            && w in SharedOf(s).nodes && SharedOf(s).nodes[w] == x.state
  {
    assert Nodes(Next(s, PollStep(w)).waiters) == Nodes(s.waiters);
  }

  lemma CasNodeSteps(s: State, w: nat)
    requires !s.fault && w in s.waiters && PollOk(s, w) && s.waiters[w].pc.CasNodeState?
    ensures var x, s' := s.waiters[w], Next(s, PollStep(w));
            && Enabled(s, PollStep(w)) && w in s'.waiters && OpOf(s, PollStep(w)) == Quiet
            && w in SharedOf(s).nodes && SharedOf(s).nodes[w] == x.state
            && (x.pc.seen == Idle || x.pc.seen == Queued)
            && (if x.state != x.pc.seen then
                  SharedOf(s') == SharedOf(s) && s'.waiters[w].pc == CasNodeState(x.pc.curr, x.state)
                else
                  SharedOf(s') == SharedOf(s).(nodes := SharedOf(s).nodes[w := QueuedWaiting])
                  && (if x.state == Queued then s'.waiters[w].pc == Out && s'.waiters[w].waiting
                      else s'.waiters[w].pc == ClearNext(x.pc.curr)))
  {
    var x := s.waiters[w];
    assert Nodes(Next(s, PollStep(w)).waiters) ==
           if x.state != x.pc.seen then Nodes(s.waiters) else Nodes(s.waiters)[w := QueuedWaiting];
  }

  lemma ClearSteps(s: State, w: nat)
    requires !s.fault && w in s.waiters && PollOk(s, w) && s.waiters[w].pc.ClearNext?
    ensures var x, s' := s.waiters[w], Next(s, PollStep(w));
            && Enabled(s, PollStep(w)) && w in s'.waiters && OpOf(s, PollStep(w)) == Quiet
            && SharedOf(s') == SharedOf(s).(next := SharedOf(s).next[Node(w) := None])
            && s'.waiters[w].pc == PollCas(x.pc.curr, true, true)
  {
    assert Nodes(Next(s, PollStep(w)).waiters) == Nodes(s.waiters);
  }

  lemma LinkSteps(s: State, w: nat)
    requires !s.fault && w in s.waiters && PollOk(s, w) && s.waiters[w].pc.LinkPrev?
    ensures var x, s' := s.waiters[w], Next(s, PollStep(w));
            && Enabled(s, PollStep(w)) && w in s'.waiters && OpOf(s, PollStep(w)) == Quiet
            && SharedOf(s') == SharedOf(s).(next := SharedOf(s).next[x.pc.prev := Some(Node(w))])
            && s'.waiters[w].pc == Out && s'.waiters[w].waiting
  {
    assert Nodes(Next(s, PollStep(w)).waiters) == Nodes(s.waiters);
  }

  lemma RevertSteps(s: State, w: nat)
    requires !s.fault && w in s.waiters && PollOk(s, w) && s.waiters[w].pc.Revert?
    ensures var s' := Next(s, PollStep(w));
            && Enabled(s, PollStep(w)) && w in s'.waiters && OpOf(s, PollStep(w)) == Quiet
            && SharedOf(s') == SharedOf(s).(nodes := SharedOf(s).nodes[w := Idle])
            && s'.waiters[w].pc == Out && !s'.waiters[w].waiting
  {
    assert Nodes(Next(s, PollStep(w)).waiters) == Nodes(s.waiters)[w := Idle];
  }

  lemma CallSteps(s: State, w: nat, reg: bool)
    requires !s.fault && w in s.waiters && PollOk(s, w) && s.waiters[w].pc == Out && !s.waiters[w].waiting
    ensures var s' := Next(s, PollCall(w, reg));
            && Enabled(s, PollCall(w, reg)) && w in s'.waiters && SharedOf(s') == SharedOf(s)
            && s'.waiters[w].pc == Decide(SharedOf(s).word, false, reg) && !s'.waiters[w].waiting
  {
    assert Nodes(Next(s, PollCall(w, reg)).waiters) == Nodes(s.waiters);
  }

  // ----- the releasing thread's own steps -----

  lemma ThreadFacts(s: State, r: nat)
    requires Inv(s) && r in s.rel && s.rel[r].Busy?
    ensures Enabled(s, ReleaseStep(r)) && !Next(s, ReleaseStep(r)).fault && s.holder == Some(r)
    ensures 0 < s.rel[r].batch <= s.rx && (s.rel[r].n == 0 <==> s.rel[r].pc == FetchSub)
    ensures OneHolder(s)
  {
    hide Counts, Orders, Links, Placed, Polls, Next;
    T.StepInv(s, ReleaseStep(r));
  }

  function NextAt(m: Shared, x: Ref): Option<Ref> { if x in m.next then m.next[x] else None }

  predicate ReadPc(pc: RelPc) {
    pc.ReadHead? || pc.LoadNext? || pc.LoadWord? || pc.LoadNext2? || pc.LoadTail? || pc.Recheck?
  }

  /** Where a read of the shared memory takes the call. */
  function AfterRead(m: Shared, pc: RelPc): RelPc
    requires ReadPc(pc)
  {
    match pc
    case ReadHead => LoadNext(m.head)
    case LoadNext(h) =>
      if h != Stub then AfterNext(h, NextAt(m, h))
      else if NextAt(m, h).Some? then SkipStub(NextAt(m, h).value) else LoadWord
    case LoadWord => CheckAdd(m.word)
    case LoadNext2(h) => AfterNext(h, NextAt(m, h))
    case LoadTail(h) => if m.word == Tail(h) then ClearStub(h) else ReadHead
    case Recheck(h) => if NextAt(m, h).Some? then TakeHead(h, NextAt(m, h).value) else ReadHead
  }

  /** The step of thread `r`, at `x`, changes the shared memory to `m`, the call to `x'`, and shows as `ops`. */
  ghost predicate Does(s: State, r: nat, x: Rel, m: Shared, x': Rel, ops: seq<Op>) {
    && r in s.rel && s.rel[r] == x && Enabled(s, ReleaseStep(r))
    && var s' := Next(s, ReleaseStep(r));
    && SharedOf(s') == m && r in s'.rel && s'.rel[r] == x' && OpBy(s, ReleaseStep(r), Thread(r)) == ops
    && s'.pushed == s.pushed && s'.served == s.served + (if ops != [] && ops[0].Pop? then [ops[0].w] else [])
  }

  lemma ReadSteps(s: State, r: nat)
    requires Enabled(s, ReleaseStep(r)) && !Next(s, ReleaseStep(r)).fault && ReadPc(s.rel[r].pc)
    ensures var x, m := s.rel[r], SharedOf(s); Does(s, r, x, m, x.(pc := AfterRead(m, x.pc)), [])
    ensures s.rel[r].pc.LoadTail? ==> s.word.Tail?
  {
    match s.rel[r].pc
    case ReadHead =>
    case LoadNext(_) =>
    case LoadWord =>
    case LoadNext2(_) =>
    case LoadTail(_) =>
    case Recheck(_) =>
  }

  lemma AddSteps(s: State, r: nat)
    requires Enabled(s, ReleaseStep(r)) && !Next(s, ReleaseStep(r)).fault && s.rel[r].pc.AddPermits?
    ensures var x, m := s.rel[r], SharedOf(s); var curr := x.pc.curr;
            && (curr.Tail? ==> curr.tail == Stub)
            && if m.word == curr then
                 Does(s, r, x, m.(word := Num(if curr.Num? then curr.permits + x.n else x.n)),
                      Busy(x.batch, 0, FetchSub), [Give(x.n)])
               else Does(s, r, x, m, x.(pc := CheckAdd(m.word)), [])
  {
  }

  lemma SkipSteps(s: State, r: nat)
    requires Enabled(s, ReleaseStep(r)) && !Next(s, ReleaseStep(r)).fault && s.rel[r].pc.SkipStub?
    ensures var x, m := s.rel[r], SharedOf(s);
            Does(s, r, x, m.(head := x.pc.nx), x.(pc := LoadNext2(x.pc.nx)), [])
  {
  }

  lemma TakeSteps(s: State, r: nat)
    requires Enabled(s, ReleaseStep(r)) && !Next(s, ReleaseStep(r)).fault && s.rel[r].pc.TakeHead?
    ensures var x, m := s.rel[r], SharedOf(s); var h := x.pc.h;
            && h.Node?
            && Does(s, r, x, m.(head := x.pc.nx), x.(pc := Notify(h.w, QueuedWaiting)), [Pop(h.w)])
  {
    var h := s.rel[r].pc.h;
    assert h.Node? && h.w in s.waiters;
    assert Nodes(Next(s, ReleaseStep(r)).waiters) == Nodes(s.waiters);
  }

  lemma StubSteps(s: State, r: nat)
    requires Enabled(s, ReleaseStep(r)) && !Next(s, ReleaseStep(r)).fault
    requires var pc := s.rel[r].pc; pc.ClearStub? || pc.SwapTail? || pc.LinkStub?
    ensures var x, m := s.rel[r], SharedOf(s);
            match x.pc
            case ClearStub(h) => Does(s, r, x, m.(next := m.next[Stub := None]), x.(pc := SwapTail(h)), [])
            case SwapTail(h) =>
              && m.word.Tail? && m.word.tail != Stub
              && Does(s, r, x, m.(word := Tail(Stub)), x.(pc := LinkStub(h, m.word.tail, |s.hist|)), [])
            case LinkStub(h, prev, _) => Does(s, r, x, m.(next := m.next[prev := Some(Stub)]), x.(pc := Recheck(h)), [])
            case _ => true
  {
    match s.rel[r].pc
    case ClearStub(_) =>
    case SwapTail(_) =>
    case LinkStub(_, _, _) =>
  }

  lemma NotifySteps(s: State, r: nat)
    requires Enabled(s, ReleaseStep(r)) && !Next(s, ReleaseStep(r)).fault && s.rel[r].pc.Notify?
    ensures var x, m := s.rel[r], SharedOf(s); var w, seen := x.pc.w, x.pc.seen;
            && w in m.nodes && x.n > 0 && (seen == Queued || seen == QueuedWaiting)
            && if m.nodes[w] != seen then Does(s, r, x, m, x.(pc := Notify(w, m.nodes[w])), [])
               else if seen == QueuedWaiting then
                 Does(s, r, x, m.(nodes := m.nodes[w := Assigned]),
                      Busy(x.batch, x.n - 1, if x.n == 1 then FetchSub else ReadHead), [])
               else Does(s, r, x, m.(nodes := m.nodes[w := Idle]), x.(pc := ReadHead), [])
  {
    var w, s' := s.rel[r].pc.w, Next(s, ReleaseStep(r));
    assert w in s.waiters && s'.waiters == s.waiters[w := s'.waiters[w]];
    assert Nodes(s'.waiters) == Nodes(s.waiters)[w := s'.waiters[w].state];
    assert Nodes(s.waiters)[w := s.waiters[w].state] == Nodes(s.waiters);
  }

  lemma SubSteps(s: State, r: nat)
    requires Enabled(s, ReleaseStep(r)) && !Next(s, ReleaseStep(r)).fault && s.rel[r].pc.FetchSub?
    ensures var x, m := s.rel[r], SharedOf(s);
            && x.batch <= m.rx
            && Does(s, r, x, m.(rx := m.rx - x.batch),
                    if m.rx == x.batch then NoCall else Busy(m.rx - x.batch, m.rx - x.batch, ReadHead), [])
  {
  }

  lemma EnterSteps(s: State, r: nat)
    requires Inv(s) && r in s.rel && s.rel[r] == NoCall
    ensures var s', m := Next(s, ReleaseCall(r)), SharedOf(s);
            && Enabled(s, ReleaseCall(r)) && SharedOf(s') == m.(rx := m.rx + 1) && r in s'.rel
            && s'.rel[r] == if m.rx == 0 then Busy(1, 1, ReadHead) else NoCall
  {
    Alive(s);
    hide Inv;
  }

  // ----- when the list is found inconsistent -----

  /** Some call has pushed its node and not linked it yet. */
  ghost predicate HalfPush(s: State) { exists w :: w in s.waiters && s.waiters[w].pc.LinkPrev? }

  /** A head without successor that is not the tail: the call that pushed behind it has not stored the link. */
  lemma InconsistentOnlyByPush(s: State, r: nat)
    requires Inv(s) && r in s.rel && s.rel[r].Busy? && NextOf(s, s.head) == None
    requires match s.rel[r].pc
             case LoadWord => s.head == Stub && s.word.Tail? && s.word.tail != Stub
             case LoadTail(h) => s.head == h && s.word != Tail(h)
             case Recheck(h) => s.head == h && |s.hist| > s.front + 1
             case _ => false
    ensures HalfPush(s) && HalfPush(Next(s, ReleaseStep(r)))
  {
    ThreadFacts(s, r);
    if P.NoHalfPush(s) {
      P.HeadAlone(s);
    }
    var w :| w in s.waiters && s.waiters[w].pc.LinkPrev?;
    ReleaseKeepsTask(s, r, w);
    hide Inv, ReleaseNext;
  }

  /** The window of the queue holds more than its head once the stub has been linked. */
  lemma StubBehind(s: State, r: nat)
    requires Inv(s) && r in s.rel && s.rel[r].Busy? && s.rel[r].pc.LinkStub?
    ensures var s' := Next(s, ReleaseStep(r)); Enabled(s, ReleaseStep(r)) && |s'.hist| > s'.front + 1
  {
    ThreadFacts(s, r);
    hide Links, Placed, Polls, Counts, Orders;
  }

  /** Where the head stands and what the call knows of it. */
  lemma HeadKnown(s: State, r: nat)
    requires Inv(s) && r in s.rel && s.rel[r].Busy?
    ensures match s.rel[r].pc
            case LoadNext(h) => h == s.head
            case LoadWord => s.head == Stub
            case AddPermits(_) => s.head == Stub
            case LoadNext2(h) => h == s.head
            case LoadTail(h) => h == s.head
            case Recheck(h) => h == s.head
            case _ => true
  {
    ThreadFacts(s, r);
    hide Links, Placed, Polls, Counts, Orders, Next;
  }

  /** What one turn of the outer loop of `pop` came to. */
  datatype Turn = Got(w: nat) | Drained | Again

  /** How it shows. */
  function OfTurn(turn: Turn, n: nat): seq<Op> {
    match turn
    case Got(w) => [Pop(w)]
    case Drained => [Give(n)]
    case Again => []
  }
}
