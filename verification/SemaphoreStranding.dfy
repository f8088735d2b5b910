/**
 * When a registration can leave its task asleep with a permit: exactly if a notifier has the cell
 * still to give back, and the poll can end in the queue.
 */
module SemaphoreStranding {
  import opened Wrappers
  import opened SemaphoreTasks
  import opened SemaphoreWakeups
  import S = SemaphoreMachine
  import I = SemaphoreInvariant
  import R = SemaphoreRuns
  import T = SemaphoreTheorems
  import P = SemaphoreProgress
  import C = SemaphoreCallSteps
  import A = AtomicTaskMachine
  import L = AtomicTaskTheorems

  /** An assigned permit that nobody will tell the task of: no call on its cell is in progress. */
  predicate Stranded(p: State, w: nat) {
    w in p.s.waiters && w in p.cells && p.s.waiters[w].state == S.Assigned && CellRests(p, w) && !WokenSince(p, w)
  }

  /** The task of `w` does not register again. */
  predicate NoRegister(acts: seq<Action>, w: nat) { forall a :: a in acts ==> a != Register(w) }

  /** Some schedule, without a further registration of its task, strands `w`. */
  ghost predicate CanStrand(p: State, w: nat) {
    exists acts :: NoRegister(acts, w) && Stranded(Exec(p, acts), w)
  }

  ghost predicate Good(p: State) { Inv(p) && Apart(p) }

  // ----- schedules -----

  ghost predicate Reach(p: State, q: State, w: nat) { exists acts :: NoRegister(acts, w) && Exec(p, acts) == q }

  lemma ReachSelf(p: State, w: nat)
    ensures Reach(p, p, w)
  {
    assert NoRegister([], w) && Exec(p, []) == p;
  }

  lemma {:induction false} ExecConcat(p: State, acts: seq<Action>, more: seq<Action>)
    ensures Exec(p, acts + more) == Exec(Exec(p, acts), more)
    decreases |acts|
  {
    hide Next, Enabled;
    if acts == [] {
      assert [] + more == more;
    } else {
      assert (acts + more)[1..] == acts[1..] + more;
      ExecConcat(if Enabled(p, acts[0]) then Next(p, acts[0]) else p, acts[1..], more);
    }
  }

  lemma ReachOn(p: State, q: State, r: State, w: nat)
    requires Reach(p, q, w) && Reach(q, r, w)
    ensures Reach(p, r, w)
  {
    hide Exec;
    var acts :| NoRegister(acts, w) && Exec(p, acts) == q;
    var more :| NoRegister(more, w) && Exec(q, more) == r;
    ExecConcat(p, acts, more);
    assert NoRegister(acts + more, w);
  }

  lemma Step(p: State, a: Action, w: nat) returns (q: State)
    requires Good(p) && Enabled(p, a) && a != Register(w)
    ensures q == Next(p, a) && Good(q) && Reach(p, q, w)
  {
    hide Inv, Apart, Next, Enabled;
    q := Next(p, a);
    StepInv(p, a);
    StepApart(p, a);
    assert [a][1..] == [] && Exec(q, []) == q;
    assert NoRegister([a], w) && Exec(p, [a]) == q;
  }

  // ----- calls of `notify` come to an end -----

  /** The steps that a notifier may still need. */
  function NotifyRank(pc: A.Pc): nat {
    match pc
    case FetchOr => 4
    case NotTake => 3
    case NotRelease(_) => 2
    case Calling(_, _) => 1
    case _ => 0
  }

  lemma NotifyOn(c: A.State, i: nat)
    requires CellOk(c) && TaskRests(c) && i in c.threads && i != TASK && c.threads[i] != A.Resting
    ensures A.Enabled(c, A.Step(i))
    ensures var c' := A.Next(c, A.Step(i));
            && i in c'.threads && NotifyRank(c'.threads[i]) < NotifyRank(c.threads[i])
            && (c'.threads[i] == A.Resting || NotifyRank(c'.threads[i]) > 0)
            && c'.issued == c.issued && c.notified <= c'.notified && c'.threads[TASK] == c.threads[TASK]
  {
    assert L.ThreadOk(c, i);
    StepIssued(c, i);
    hide A.FetchOrNotifying, A.FetchAndNotNotifying, CellOk, A.RegisterStep;
    match c.threads[i]
    case FetchOr =>
    case NotTake =>
    case NotRelease(_) =>
    case Calling(_, _) =>
  }

  /** The task has been notified already, so that nobody will notify it again. */
  predicate Told(p: State, w: nat) {
    w in p.cells && TASK in p.cells[w].threads && p.cells[w].threads[TASK] == A.Resting && TimesTold(p.cells[w]) > 0
  }

  /** What steps of notifiers leave as it is. */
  predicate SameBut(p: State, q: State) {
    q.s == p.s && q.registered == p.registered && q.told == p.told && q.cells.Keys == p.cells.Keys
  }

  lemma NotifierSteps(p: State, v: nat, i: nat, w: nat) returns (q: State)
    requires Good(p) && v in p.cells && Busy(p.cells[v], i) && i != TASK
    ensures Good(q) && Reach(p, q, w) && SameBut(p, q) && (Told(p, w) ==> Told(q, w))
    ensures q.cells == p.cells[v := q.cells[v]] && q.cells[v].threads.Keys == p.cells[v].threads.Keys
    ensures i in q.cells[v].threads && NotifyRank(q.cells[v].threads[i]) < NotifyRank(p.cells[v].threads[i])
    ensures forall j :: j in p.cells[v].threads && j != i ==> q.cells[v].threads[j] == p.cells[v].threads[j]
    ensures TaskFree(p, v) ==> TaskFree(q, v)
  {
    hide Inv, Apart, A.Next, A.Enabled, TaskRests, NotifyRank, OneCellEach;
    StandingCell(p, v);
    RestsOf(p, v);
    NotifyOn(p.cells[v], i);
    CellMoves(p.cells[v], i);
    q := Step(p, CellStep(v, i), w);
  }

  /** One call of `notify` runs to its end. */
  lemma {:induction false} FinishNotify(p: State, v: nat, i: nat, w: nat) returns (q: State)
    requires Good(p) && v in p.cells && i in p.cells[v].threads && i != TASK
    ensures Good(q) && Reach(p, q, w) && SameBut(p, q) && (Told(p, w) ==> Told(q, w))
    ensures q.cells == p.cells[v := q.cells[v]] && q.cells[v].threads.Keys == p.cells[v].threads.Keys
    ensures q.cells[v].threads[i] == A.Resting
    ensures forall j :: j in p.cells[v].threads && j != i ==> q.cells[v].threads[j] == p.cells[v].threads[j]
    decreases NotifyRank(p.cells[v].threads[i])
  {
    hide Inv, Apart, TaskRests, NotifyRank, OneCellEach, Told, Reach, Good;
    if p.cells[v].threads[i] == A.Resting {
      ReachSelf(p, w);
      q := p;
    } else {
      var m := NotifierSteps(p, v, i, w);
      q := FinishNotify(m, v, i, w);
      ReachOn(p, m, q, w);
    }
  }

  lemma InCells(p: State, r: nat)
    requires Inv(p) && r in p.s.rel
    ensures forall u :: u in p.cells ==> r + 1 in p.cells[u].threads
  {
    hide I.Inv, CellOk, TaskOk;
  }

  lemma Elsewhere(p: State, v: nat, i: nat)
    requires Apart(p) && v in p.cells && i != TASK && Busy(p.cells[v], i)
    ensures forall u :: u in p.cells && u != v ==> !Busy(p.cells[u], i)
  {
    hide TaskRests, HandTail;
  }

  /** A releasing thread leaves the call of `notify` that it may be in. */
  lemma FreeTeller(p: State, r: nat, w: nat) returns (q: State)
    requires Good(p) && r in p.s.rel
    ensures Good(q) && Reach(p, q, w) && SameBut(p, q) && (Told(p, w) ==> Told(q, w)) && TellerFree(q, r)
  {
    hide Inv, Apart, Told, Reach;
    InCells(p, r);
    if v :| v in p.cells && Busy(p.cells[v], r + 1) {
      Elsewhere(p, v, r + 1);
      q := FinishNotify(p, v, r + 1, w);
    } else {
      ReachSelf(p, w);
      q := p;
    }
  }

  // ----- the task is notified before it asks -----

  lemma SelfNotifies(c: A.State)
    requires CellOk(c) && TASK in c.threads && c.threads[TASK].RegCas? && c.word == A.NOTIFYING
    ensures A.Enabled(c, A.Step(TASK))
    ensures var c' := A.Next(c, A.Step(TASK));
            && CellOk(c') && A.Enabled(c', A.Step(TASK))
            && var c'' := A.Next(c', A.Step(TASK));
               TASK in c''.threads && c''.threads[TASK] == A.Resting && c''.issued == c.issued && TimesTold(c'') > 0
  {
    assert L.OwnTask(c.threads[TASK]).Some?;
    assert c.issued > 0 && c.threads[TASK].t == c.issued - 1;
    CellKept(c, A.Step(TASK));
    hide CellOk;
  }

  /** A notifier that has the cell still to give back holds it, or is about to take it. */
  lemma EngagedWord(c: A.State, i: nat)
    requires CellOk(c) && TASK in c.threads && c.threads[TASK] == A.Resting && i in c.threads && Engaged(c.threads[i])
    ensures c.word == A.NOTIFYING || (c.word == A.WAITING && c.threads[i].FetchOr?)
  {
    assert L.ThreadOk(c, i);
    if c.owner.Some? { assert L.ThreadOk(c, c.owner.value); }
  }

  lemma FetchOrTakes(c: A.State, i: nat)
    requires i in c.threads && c.threads[i].FetchOr? && c.word == A.WAITING
    requires !c.fault && i != TASK && TASK in c.threads
    ensures A.Enabled(c, A.Step(i))
    ensures var c' := A.Next(c, A.Step(i));
            c'.word == A.NOTIFYING && c'.threads == c.threads[i := A.NotTake] && c'.issued == c.issued
  {
  }

  lemma RegisterStarts(c: A.State)
    requires A.Enabled(c, A.Register(TASK))
    ensures var c' := A.Next(c, A.Register(TASK));
            && c'.word == c.word && c'.threads == c.threads[TASK := A.RegCas(c.issued)] && !c'.fault
            && c'.issued == c.issued + 1
  {
  }

  /** The registration meets the notifier: the task is notified before it has asked for anything. */
  lemma ToldTooEarly(p: State, w: nat) returns (q: State)
    requires Good(p) && Enabled(p, Register(w)) && CellEngaged(p.cells[w])
    ensures Reach(Next(p, Register(w)), q, w) && Good(q) && Told(q, w) && w in q.registered && q.s == p.s
  {
    hide Inv, Apart, A.Next, A.Enabled, TaskRests, Reach, CellOk, TimesTold;
    var p1 := Next(p, Register(w));
    StepInv(p, Register(w));
    StepApart(p, Register(w));
    StandingCell(p, w);
    var c := p.cells[w];
    var i :| i in c.threads && Engaged(c.threads[i]);
    EngagedWord(c, i);
    RegisterStarts(c);
    var p2 := p1;
    if c.word == A.WAITING {
      FetchOrTakes(p1.cells[w], i);
      p2 := Step(p1, CellStep(w, i), w);
    } else {
      ReachSelf(p1, w);
    }
    StandingCell(p2, w);
    SelfNotifies(p2.cells[w]);
    var p3 := Step(p2, CellStep(w, TASK), w);
    q := Step(p3, CellStep(w, TASK), w);
    ReachOn(p1, p2, p3, w);
    ReachOn(p1, p3, q, w);
  }

  // ----- the poll ends in the queue -----

  lemma NotifyCounts(c: A.State, i: nat)
    requires A.Enabled(c, A.Notify(i))
    ensures A.Next(c, A.Notify(i)).notified == c.notified && A.Next(c, A.Notify(i)).issued == c.issued
  {
  }

  lemma ByRelease(s: S.State, b: S.Action)
    requires S.Enabled(s, b) && Assignee(s, b).Some?
    ensures b.ReleaseStep?
  {
  }

  lemma ToldStays(p: State, b: S.Action, w: nat)
    requires Inv(p) && Enabled(p, Sem(b)) && Told(p, w)
    ensures Told(Next(p, Sem(b)), w)
  {
    hide Inv, Next, A.Next, A.Enabled, S.Next, S.Enabled, Assignee;
    InvOf(p);
    SemCell(p, b, w);
    if Assignee(p.s, b) == Some(w) {
      ByRelease(p.s, b);
      AssigneeTold(p, b, w);
      NotifyCounts(p.cells[w], b.r + 1);
    }
  }

  /** Inside the part of `poll_permit` that ends in the queue. */
  predicate Queueing(pc: S.PollPc) {
    pc.LoadNodeState? || pc.CasNodeState? || pc.ClearNext? || (pc.PollCas? && pc.strong) || pc.LinkPrev?
  }

  function QueueRank(s: S.State, w: nat): nat
    requires w in s.waiters
  {
    match s.waiters[w].pc
    case LoadNodeState(_) => 7
    case CasNodeState(_, seen) => if seen != s.waiters[w].state then 6 else 5
    case ClearNext(_) => 4
    case PollCas(curr, _, _) => if curr != s.word then 3 else 2
    case LinkPrev(_, _) => 1
    case _ => 0
  }

  lemma QueueStep(s: S.State, w: nat)
    requires !s.fault && w in s.waiters && I.PollOk(s, w) && s.word.Tail? && Queueing(s.waiters[w].pc)
    ensures S.Enabled(s, S.PollStep(w))
    ensures var s' := S.PollNext(s, w);
            && w in s'.waiters && s'.word.Tail? && QueueRank(s', w) < QueueRank(s, w)
            && !s'.waiters[w].pc.LoadNodeState?
            && (Queueing(s'.waiters[w].pc)
                || (s'.waiters[w].pc == S.Out && s'.waiters[w].waiting && s'.waiters[w].state == S.QueuedWaiting))
  {
    match s.waiters[w].pc
    case PollCas(_, _, _) =>
    case LoadNodeState(_) =>
    case CasNodeState(_, _) =>
    case ClearNext(_) =>
    case LinkPrev(_, _) =>
  }

  /** Its call has returned `NotReady`; if it has been assigned a permit since, its task had been notified before. */
  predicate Requesting(p: State, w: nat) {
    && w in p.s.waiters && p.s.waiters[w].pc == S.Out && p.s.waiters[w].waiting
    && (p.s.waiters[w].state == S.QueuedWaiting || (p.s.waiters[w].state == S.Assigned && TellOf(p, w) > 0))
  }

  lemma PollFacts(s: S.State, w: nat)
    requires I.Inv(s) && w in s.waiters
    ensures !s.fault && I.PollOk(s, w)
  {
    hide I.PollOk;
  }

  lemma {:induction false} PollAlone(p: State, w: nat) returns (q: State)
    requires Good(p) && Told(p, w) && w in p.s.waiters && p.s.word.Tail? && Queueing(p.s.waiters[w].pc)
    requires p.s.waiters[w].pc.LoadNodeState? ==> w in p.registered
    ensures Good(q) && Reach(p, q, w) && Told(q, w) && Requesting(q, w)
    decreases QueueRank(p.s, w)
  {
    hide Inv, Apart, S.PollNext, Reach, Told, TimesTold, I.PollOk, QueueRank, A.Next, A.Enabled;
    InvOf(p);
    PollFacts(p.s, w);
    QueueStep(p.s, w);
    var b := S.PollStep(w);
    assert TaskFree(p, w) by { ToldFree(p, w); }
    ToldStays(p, b, w);
    var m := Step(p, Sem(b), w);
    if Queueing(m.s.waiters[w].pc) {
      q := PollAlone(m, w);
      ReachOn(p, m, q, w);
    } else {
      q := m;
    }
  }

  lemma ToldFree(p: State, w: nat)
    requires Told(p, w)
    ensures TaskFree(p, w)
  {
  }

  // ----- the pushes of others come to an end -----

  function HalfPushes(s: S.State): set<nat> { set v | v in s.waiters && s.waiters[v].pc.LinkPrev? }

  lemma LinkStep(s: S.State, v: nat)
    requires !s.fault && v in s.waiters && I.PollOk(s, v) && s.waiters[v].pc.LinkPrev?
    ensures S.Enabled(s, S.PollStep(v)) && Asked(s.waiters[v])
    ensures var s' := S.PollNext(s, v);
            && HalfPushes(s') == HalfPushes(s) - {v}
            && forall w :: w in s.waiters && w != v ==> w in s'.waiters && s'.waiters[w] == s.waiters[w]
  {
  }

  lemma TaskOutside(p: State, v: nat)
    requires Good(p) && v in p.s.waiters && Asked(p.s.waiters[v])
    ensures TaskFree(p, v)
  {
    hide Inv, Apart, Asked;
    InvOf(p);
    RequestStands(p, v);
    RestsOf(p, v);
  }

  lemma SameTell(p: State, v: nat)
    requires Enabled(p, Sem(S.PollStep(v)))
    ensures Next(p, Sem(S.PollStep(v))).told == p.told
  {
    hide S.Next, S.Enabled, A.Next, A.Enabled;
  }

  lemma {:induction false} FinishPushes(p: State, w: nat) returns (q: State)
    requires Good(p) && Told(p, w) && Requesting(p, w)
    ensures Good(q) && Reach(p, q, w) && Told(q, w) && Requesting(q, w) && P.NoHalfPush(q.s)
    decreases |HalfPushes(p.s)|
  {
    hide Inv, Apart, S.PollNext, Reach, Told, TimesTold, I.PollOk, A.Next, A.Enabled, Asked;
    if v :| v in HalfPushes(p.s) {
      InvOf(p);
      PollFacts(p.s, v);
      LinkStep(p.s, v);
      var b := S.PollStep(v);
      TaskOutside(p, v);
      ToldStays(p, b, w);
      SameTell(p, v);
      var m := Step(p, Sem(b), w);
      q := FinishPushes(m, w);
      ReachOn(p, m, q, w);
    } else {
      ReachSelf(p, w);
      q := p;
      assert P.NoHalfPush(p.s) by {
        forall v | v in p.s.waiters ensures !p.s.waiters[v].pc.LinkPrev? { assert v !in HalfPushes(p.s); }
      }
    }
  }

  // ----- releases until the permit comes -----

  lemma ReleaseKeepsRequest(p: State, r: nat, w: nat)
    requires Inv(p) && Enabled(p, Sem(S.ReleaseStep(r))) && Told(p, w) && Requesting(p, w)
    ensures Requesting(Next(p, Sem(S.ReleaseStep(r))), w)
  {
    hide Inv, Told, S.ReleaseNext, S.Enabled, A.Next, A.Enabled, TimesTold, Moves, I.PollOk;
    var b := S.ReleaseStep(r);
    var p' := Next(p, Sem(b));
    ToldTwice(p, w);
    InvOf(p);
    C.ReleaseKeepsTask(p.s, r, w);
    ToldAt(p, b, w);
    SemRequests(p, b, w);
    SemSafe(p, b);
    WaitingStates(p'.s, w);
  }

  lemma ToldTwice(p: State, w: nat)
    requires Told(p, w)
    ensures w in p.cells && TimesTold(p.cells[w]) > 0
  {
  }

  lemma TotalsKept(s: S.State, r: nat)
    requires S.Enabled(s, S.ReleaseStep(r))
    ensures var s' := S.ReleaseNext(s, r);
            && s'.obtained == s.obtained && s'.initial == s.initial && s'.released == s.released
            && s'.waiters.Keys == s.waiters.Keys
  {
    hide S.ReleaseNext;
    forall v ensures v in S.ReleaseNext(s, r).waiters <==> v in s.waiters { R.StateKept(s, r, v); }
    R.StateKept(s, r, 0);
  }

  /** What a schedule without polls and without `acquire` keeps. */
  predicate Totals(s: S.State, s': S.State) {
    && s'.obtained == s.obtained && s'.initial == s.initial
    && s'.waiters.Keys == s.waiters.Keys && s'.rel.Keys == s.rel.Keys
  }

  lemma ReleaseEnabled(p: State, r: nat)
    requires Inv(p) && TellerFree(p, r) && r in p.s.rel && p.s.rel[r].Busy?
    ensures Enabled(p, Sem(S.ReleaseStep(r)))
  {
    hide CellOk, TaskOk;
    InvOf(p);
  }

  /** One step of the call that holds `rx_lock`, once its thread is out of `notify`. */
  lemma HolderStep(p: State, r: nat, w: nat) returns (q: State)
    requires Good(p) && Told(p, w) && Requesting(p, w) && P.NoHalfPush(p.s) && r in p.s.rel && p.s.rel[r].Busy?
    ensures Good(q) && Reach(p, q, w) && Told(q, w) && Requesting(q, w)
    ensures q.s == S.ReleaseNext(p.s, r) && Totals(p.s, q.s) && q.s.released == p.s.released
  {
    hide Inv, Apart, S.ReleaseNext, Reach, Told, A.Next, A.Enabled, TellerFree, S.Enabled, P.NoHalfPush;
    var b := S.ReleaseStep(r);
    var m := FreeTeller(p, r, w);
    SameRequest(p, m, w);
    ReleaseEnabled(m, r);
    SemState(m, b);
    TotalsKept(m.s, r);
    ToldStays(m, b, w);
    ReleaseKeepsRequest(m, r, w);
    q := Step(m, Sem(b), w);
    ReachOn(p, m, q, w);
  }

  lemma SameRequest(p: State, q: State, w: nat)
    requires SameBut(p, q) && Requesting(p, w)
    ensures Requesting(q, w)
  {
  }

  lemma {:induction false} FinishRelease(p: State, r: nat, w: nat) returns (q: State)
    requires Good(p) && Told(p, w) && Requesting(p, w) && P.NoHalfPush(p.s) && r in p.s.rel && p.s.rel[r].Busy?
    ensures Good(q) && Reach(p, q, w) && Told(q, w) && Requesting(q, w) && P.NoHalfPush(q.s)
    ensures q.s.rx == 0 && Totals(p.s, q.s) && q.s.released == p.s.released
    decreases I.Undelivered(p.s), |T.AbsOf(p.s).queue|, P.RankOf(p.s, r)
  {
    hide Inv, Apart, S.ReleaseNext, Reach, Told, Requesting, I.Undelivered, T.AbsOf, P.RankOf, P.NoHalfPush, I.Inv;
    InvOf(p);
    P.MeasureFalls(p.s, r);
    var m := HolderStep(p, r, w);
    if m.s.rel[r].Busy? {
      q := FinishRelease(m, r, w);
      ReachOn(p, m, q, w);
    } else {
      q := m;
    }
  }

  /** While the request stands in the queue, at rest, every permit is with a task or assigned. */
  lemma AllOut(s: S.State, w: nat)
    requires I.Inv(s) && s.rx == 0 && w in s.waiters
    requires s.waiters[w].pc == S.Out && s.waiters[w].state == S.QueuedWaiting
    ensures s.initial + s.released == s.obtained + |I.AssignedSet(s)| && w !in I.AssignedSet(s)
  {
    PollFacts(s, w);
    assert I.InHand(s) == None by { NobodyHolds(s); }
    if s.word.Num? { T.NumberMode(s); }
    C.Alive(s);
    hide I.Links, I.Placed, I.Polls, I.Orders, I.OneHolder;
  }

  lemma NobodyHolds(s: S.State)
    requires I.Inv(s) && s.rx == 0
    ensures I.HolderPc(s) == None && I.InHand(s) == None && forall r :: r in s.rel ==> s.rel[r] == S.NoCall
  {
    hide I.Links, I.Placed, I.Polls, I.Orders, I.Counts;
  }

  lemma CallState(s: S.State, r: nat)
    requires !s.fault && r in s.rel && s.rel[r] == S.NoCall && s.rx == 0
    ensures S.Enabled(s, S.ReleaseCall(r))
    ensures var s' := S.Next(s, S.ReleaseCall(r));
            s'.waiters == s.waiters && Totals(s, s') && s'.released == s.released + 1 && r in s'.rel && s'.rel[r].Busy?
  {
  }

  lemma CallStarts(p: State, r: nat, w: nat)
    requires Good(p) && Told(p, w) && Requesting(p, w) && P.NoHalfPush(p.s)
    requires p.s.rx == 0 && r in p.s.rel && TellerFree(p, r)
    ensures Enabled(p, Sem(S.ReleaseCall(r)))
    ensures var q := Next(p, Sem(S.ReleaseCall(r)));
            && Told(q, w) && Requesting(q, w) && P.NoHalfPush(q.s) && r in q.s.rel && q.s.rel[r].Busy?
            && Totals(p.s, q.s) && q.s.released == p.s.released + 1
  {
    hide Inv, Apart, Told, TellerFree, A.Next, A.Enabled, TimesTold, I.Inv, S.Next, S.Enabled, R.Hands;
    InvOf(p);
    C.Alive(p.s);
    NobodyHolds(p.s);
    CallState(p.s, r);
    ToldStays(p, S.ReleaseCall(r), w);
  }

  lemma OneMore(s: S.State, s': S.State, w: nat)
    requires I.Inv(s) && I.Inv(s') && s.rx == 0 && s'.rx == 0 && w in s.waiters && w in s'.waiters
    requires s.waiters[w].pc == S.Out && s.waiters[w].state == S.QueuedWaiting
    requires s'.waiters[w].pc == S.Out && s'.waiters[w].state == S.QueuedWaiting
    requires Totals(s, s') && s'.released == s.released + 1
    ensures |I.AssignedSet(s')| == |I.AssignedSet(s)| + 1
  {
    hide I.Inv;
    AllOut(s, w);
    AllOut(s', w);
  }

  /** One more release, from its call to its end: one more node is assigned a permit, unless `w` is. */
  lemma Round(p: State, r: nat, w: nat) returns (q: State)
    requires Good(p) && Told(p, w) && Requesting(p, w) && P.NoHalfPush(p.s) && p.s.rx == 0 && r in p.s.rel
    requires p.s.waiters[w].state == S.QueuedWaiting
    ensures Good(q) && Reach(p, q, w) && Told(q, w) && Requesting(q, w) && P.NoHalfPush(q.s) && q.s.rx == 0
    ensures Totals(p.s, q.s)
    ensures q.s.waiters[w].state == S.Assigned || |I.AssignedSet(q.s)| == |I.AssignedSet(p.s)| + 1
  {
    hide Inv, Apart, S.Next, Reach, Told, TellerFree;
    hide A.Next, A.Enabled, S.Enabled, P.NoHalfPush, I.Inv, I.AssignedSet, TellOf;
    var m := FreeTeller(p, r, w);
    SameRequest(p, m, w);
    CallStarts(m, r, w);
    var n := Step(m, Sem(S.ReleaseCall(r)), w);
    q := FinishRelease(n, r, w);
    ReachOn(p, m, n, w);
    ReachOn(p, n, q, w);
    InvOf(p);
    InvOf(q);
    if q.s.waiters[w].state != S.Assigned { OneMore(p.s, q.s, w); }
  }

  lemma FewAssigned(s: S.State, w: nat)
    requires I.Inv(s) && s.rx == 0 && w in s.waiters
    requires s.waiters[w].pc == S.Out && s.waiters[w].state == S.QueuedWaiting
    ensures |I.AssignedSet(s)| < |s.waiters.Keys|
  {
    AllOut(s, w);
    Subsets(I.AssignedSet(s) + {w}, s.waiters.Keys);
    hide I.Inv;
  }

  lemma {:induction false} Subsets(a: set<nat>, b: set<nat>)
    requires a <= b
    ensures |a| <= |b|
    decreases a
  {
    if x :| x in a { Subsets(a - {x}, b - {x}); }
  }

  /** Releases until `w` is assigned a permit. */
  lemma {:induction false} Serve(p: State, r: nat, w: nat) returns (q: State)
    requires Good(p) && Told(p, w) && Requesting(p, w) && P.NoHalfPush(p.s) && p.s.rx == 0 && r in p.s.rel
    ensures Good(q) && Reach(p, q, w) && Told(q, w) && Requesting(q, w) && q.s.waiters[w].state == S.Assigned
    decreases |p.s.waiters.Keys| - |I.AssignedSet(p.s)|
  {
    hide Inv, Apart, Reach, Told, P.NoHalfPush, I.Inv, I.AssignedSet, TellOf;
    if p.s.waiters[w].state == S.Assigned {
      ReachSelf(p, w);
      q := p;
    } else {
      InvOf(p);
      FewAssigned(p.s, w);
      var m := Round(p, r, w);
      if m.s.waiters[w].state == S.Assigned { return m; }
      q := Serve(m, r, w);
      ReachOn(p, m, q, w);
    }
  }

  function BusyIn(c: A.State): set<nat> { set i | i in c.threads && i != TASK && c.threads[i] != A.Resting }

  lemma {:induction false} FinishCell(p: State, w: nat) returns (q: State)
    requires Good(p) && Told(p, w) && w in p.cells
    ensures Good(q) && Reach(p, q, w) && SameBut(p, q) && Told(q, w) && w in q.cells && CellRests(q, w)
    decreases |BusyIn(p.cells[w])|
  {
    hide Inv, Apart, Reach, TimesTold;
    if i :| i in BusyIn(p.cells[w]) {
      var m := FinishNotify(p, w, i, w);
      assert BusyIn(m.cells[w]) == BusyIn(p.cells[w]) - {i};
      q := FinishCell(m, w);
      ReachOn(p, m, q, w);
    } else {
      ReachSelf(p, w);
      q := p;
      assert CellRests(p, w) by {
        forall i | i in p.cells[w].threads ensures p.cells[w].threads[i] == A.Resting {
          assert i !in BusyIn(p.cells[w]);
        }
      }
    }
  }

  lemma ToldOnceOnly(c: A.State)
    requires CellOk(c)
    ensures TimesTold(c) <= 1
  {
    if c.issued > 0 { assert L.HomeOk(c, c.issued - 1); }
  }

  /** A request whose task has been notified already gets its permit, and nobody tells the task. */
  lemma StrandRequest(p: State, r: nat, w: nat) returns (q: State)
    requires Good(p) && Told(p, w) && Requesting(p, w) && w in p.cells && r in p.s.rel
    ensures Reach(p, q, w) && Stranded(q, w)
  {
    hide Inv, Apart, Reach, Told, P.NoHalfPush, I.Inv, TimesTold, TellOf;
    var m := FinishPushes(p, w);
    PushesKeepKeys(p, m, w);
    var n := m;
    if h :| h in m.s.rel && m.s.rel[h].Busy? {
      n := FinishRelease(m, h, w);
      ReachOn(p, m, n, w);
    } else {
      InvOf(m);
      Unheld(m.s);
    }
    var k := Serve(n, r, w);
    ReachOn(p, n, k, w);
    ToldTwice(k, w);
    q := FinishCell(k, w);
    ReachOn(p, k, q, w);
    StandingCell(q, w);
    ToldOnceOnly(q.cells[w]);
    SameTellOf(k, q, w);
  }

  lemma Unheld(s: S.State)
    requires I.Inv(s) && forall r :: r in s.rel ==> !s.rel[r].Busy?
    ensures s.rx == 0
  {
    hide I.Links, I.Placed, I.Polls, I.Orders, I.Counts, I.OneHolder;
  }

  lemma SameTellOf(p: State, q: State, w: nat)
    requires SameBut(p, q)
    ensures TellOf(p, w) == TellOf(q, w)
  {
  }

  lemma PushesKeepKeys(p: State, q: State, w: nat)
    requires Good(p) && Reach(p, q, w)
    ensures q.s.rel.Keys == p.s.rel.Keys
  {
    hide Inv, Apart, Exec;
    var acts :| NoRegister(acts, w) && Exec(p, acts) == q;
    KeysFixed(p, acts);
  }

  // ----- another task takes the permits that are there -----

  /** While permits are there to take, no node is in the queue or in the hands of `notify`. */
  lemma NobodyQueued(s: S.State, v: nat)
    requires I.Inv(s) && HandTail(s) && s.word.Num? && v in s.waiters
    ensures s.word.permits >= 1 && !s.fault && I.PollOk(s, v) && !s.waiters[v].pc.LinkPrev?
    ensures s.waiters[v].loc == S.Away || s.waiters[v].loc == S.Pushing
  {
    T.NumberMode(s);
    PollFacts(s, v);
    hide I.Inv;
  }

  /** What its task does next. */
  function DrainAct(s: S.State, v: nat): S.Action
    requires v in s.waiters
  {
    if s.waiters[v].pc != S.Out then S.PollStep(v)
    else if s.waiters[v].waiting then S.Acquire(v)
    else S.PollCall(v, true)
  }

  function DrainRank(s: S.State, v: nat, registered: bool): nat
    requires v in s.waiters
  {
    var x := s.waiters[v];
    match x.pc
    case Out => if x.waiting then 12 else 10
    case Revert => 11
    case LoadNodeState(_) => if registered then 8 else 9
    case CasNodeState(_, seen) => if seen != x.state then 7 else 6
    case ClearNext(_) => 5
    case PollCas(curr, _, _) => if curr != s.word then 3 else 2
    case LinkPrev(_, _) => 1
  }

  lemma DrainStep(s: S.State, v: nat, w: nat)
    requires !s.fault && v in s.waiters && w in s.waiters && v != w && s.word.Num? && s.word.permits >= 1
    requires I.PollOk(s, v) && !s.waiters[v].pc.LinkPrev?
    requires s.waiters[v].loc == S.Away || s.waiters[v].loc == S.Pushing
    ensures var b := DrainAct(s, v);
            && S.Enabled(s, b)
            && var s' := S.Next(s, b);
            && v in s'.waiters && w in s'.waiters && s'.waiters[w] == s.waiters[w] && s'.rel == s.rel
            && (s'.word.Num? ==>
                  s'.word.permits < s.word.permits
                  || (s'.word == s.word
                      && (s.waiters[v].pc.LoadNodeState? ==> DrainRank(s', v, false) < 8)
                      && (!s.waiters[v].pc.LoadNodeState? ==>
                            DrainRank(s', v, true) == DrainRank(s', v, false) < DrainRank(s, v, false))))
  {
    match s.waiters[v].pc
    case PollCas(_, _, _) =>
    case LoadNodeState(_) =>
    case CasNodeState(_, _) =>
    case ClearNext(_) =>
    case Revert =>
    case Out =>
  }

  /** The steps that a call of `register` may still need. */
  function RegisterRank(pc: A.Pc): nat {
    match pc
    case RegCas(_) => 6
    case RegStore(_) => 5
    case RegRelease(_) => 4
    case RegTake(_) => 3
    case RegSwap(_) => 2
    case Resting => 0
    case _ => 1
  }

  lemma RegisterOn(c: A.State)
    requires CellOk(c) && TaskRests(c) && c.threads[TASK] != A.Resting
    ensures A.Enabled(c, A.Step(TASK))
    ensures var c' := A.Next(c, A.Step(TASK));
            TASK in c'.threads && RegisterRank(c'.threads[TASK]) < RegisterRank(c.threads[TASK])
  {
    CellMoves(c, TASK);
    hide CellOk;
    match c.threads[TASK]
    case RegCas(_) =>
    case RegStore(_) =>
    case RegRelease(_) =>
    case RegTake(_) =>
    case RegSwap(_) =>
    case Calling(_, _) =>
  }

  lemma MayRegister(c: A.State)
    requires CellOk(c) && TASK in c.threads && c.threads[TASK] == A.Resting
    ensures A.Enabled(c, A.Register(TASK))
  {
  }

  /** The poll of `w` is about to ask for a place in the queue. */
  predicate AboutToAsk(p: State, w: nat) {
    w in p.s.waiters && w in p.registered && p.s.waiters[w].pc.LoadNodeState?
  }

  /** What the drain has to bring down. */
  function Permits(s: S.State): nat { if s.word.Num? then s.word.permits else 0 }

  lemma HandsOf(p: State)
    requires Apart(p)
    ensures HandTail(p.s)
  {
    hide TaskRests, OneCellEach, HandTail;
  }

  lemma DrainEnabled(p: State, v: nat, w: nat)
    requires v in p.s.waiters && S.Enabled(p.s, DrainAct(p.s, v)) && TaskFree(p, v)
    requires p.s.waiters[v].pc.LoadNodeState? ==> v in p.registered
    ensures Enabled(p, Sem(DrainAct(p.s, v)))
    ensures var q := Next(p, Sem(DrainAct(p.s, v)));
            && q.s == S.Next(p.s, DrainAct(p.s, v)) && q.cells == p.cells
            && q.registered == if p.s.waiters[v].pc.LoadNodeState? then p.registered - {v} else p.registered
  {
    hide S.Next, S.Enabled;
  }

  /** An action of the other task on the semaphore. */
  lemma DrainSem(p: State, v: nat, w: nat) returns (q: State)
    requires Good(p) && Told(p, w) && AboutToAsk(p, w) && p.s.word.Num? && v in p.s.waiters && v != w && TaskFree(p, v)
    requires p.s.waiters[v].pc.LoadNodeState? ==> v in p.registered
    ensures Good(q) && Reach(p, q, w) && Told(q, w) && AboutToAsk(q, w) && q.s.rel.Keys == p.s.rel.Keys
    ensures v in q.s.waiters && q.cells == p.cells
    ensures q.s.word.Num? ==>
              || Permits(q.s) < Permits(p.s)
              || (Permits(q.s) == Permits(p.s)
                  && DrainRank(q.s, v, v in q.registered) < DrainRank(p.s, v, v in p.registered))
  {
    hide Inv, Apart, Reach, Told, I.Inv, I.PollOk, S.Next, S.Enabled, A.Next, A.Enabled, HandTail, TaskFree;
    InvOf(p);
    HandsOf(p);
    NobodyQueued(p.s, v);
    DrainStep(p.s, v, w);
    DrainEnabled(p, v, w);
    ToldStays(p, DrainAct(p.s, v), w);
    q := Step(p, Sem(DrainAct(p.s, v)), w);
  }

  /** One action of another task while permits are there. */
  lemma DrainOnce(p: State, v: nat, w: nat) returns (q: State)
    requires Good(p) && Told(p, w) && AboutToAsk(p, w) && p.s.word.Num? && v in p.s.waiters && v in p.cells && v != w
    requires TASK in p.cells[v].threads
    ensures Good(q) && Reach(p, q, w) && Told(q, w) && AboutToAsk(q, w) && q.s.rel.Keys == p.s.rel.Keys
    ensures v in q.s.waiters && v in q.cells && TASK in q.cells[v].threads
    ensures q.s.word.Num? ==>
              || Permits(q.s) < Permits(p.s)
              || (Permits(q.s) == Permits(p.s)
                  && (DrainRank(q.s, v, v in q.registered) < DrainRank(p.s, v, v in p.registered)
                      || (DrainRank(q.s, v, v in q.registered) == DrainRank(p.s, v, v in p.registered)
                          && RegisterRank(q.cells[v].threads[TASK]) < RegisterRank(p.cells[v].threads[TASK]))))
  {
    hide Inv, Apart, Reach, Told, I.Inv, I.PollOk, S.Next;
    hide S.Enabled, A.Next, A.Enabled, DrainRank, RegisterRank, HandTail, TaskRests;
    StandingCell(p, v);
    RestsOf(p, v);
    if p.cells[v].threads[TASK] != A.Resting {
      RegisterOn(p.cells[v]);
      q := Step(p, CellStep(v, TASK), w);
      ToldElsewhere(p, q, v, w);
    } else if p.s.waiters[v].pc.LoadNodeState? && v !in p.registered {
      InvOf(p);
      C.Alive(p.s);
      MayRegister(p.cells[v]);
      RegisterStarts(p.cells[v]);
      q := Step(p, Register(v), w);
      ToldElsewhere(p, q, v, w);
      RegisteredRank(p.s, v);
    } else {
      q := DrainSem(p, v, w);
    }
  }

  lemma RegisteredRank(s: S.State, v: nat)
    requires v in s.waiters && s.waiters[v].pc.LoadNodeState?
    ensures DrainRank(s, v, true) < DrainRank(s, v, false)
  {
  }

  lemma ToldElsewhere(p: State, q: State, v: nat, w: nat)
    requires Told(p, w) && v != w && v in q.cells && q.cells == p.cells[v := q.cells[v]]
    ensures Told(q, w)
  {
  }

  /** The other task polls until no permit is left to take. */
  lemma {:induction false} DrainPermits(p: State, v: nat, w: nat) returns (q: State)
    requires Good(p) && Told(p, w) && AboutToAsk(p, w) && v in p.s.waiters && v in p.cells && v != w
    requires TASK in p.cells[v].threads
    ensures Good(q) && Reach(p, q, w) && Told(q, w) && AboutToAsk(q, w)
    ensures q.s.rel.Keys == p.s.rel.Keys && q.s.word.Tail?
    decreases Permits(p.s), p.s.word.Num?, DrainRank(p.s, v, v in p.registered), RegisterRank(p.cells[v].threads[TASK])
  {
    hide Inv, Apart, Reach, Told, DrainRank, RegisterRank, AboutToAsk;
    if p.s.word.Num? {
      var m := DrainOnce(p, v, w);
      q := DrainPermits(m, v, w);
      ReachOn(p, m, q, w);
    } else {
      ReachSelf(p, w);
      q := p;
    }
  }

  // ----- a poll that cannot end in the queue -----

  /** With permits there and nobody else to take them, the poll of `w` will take one. */
  predicate TakesOne(s: S.State, w: nat, registered: bool) {
    && s.waiters.Keys == {w}
    && var x := s.waiters[w];
    && (x.loc == S.Away || x.loc == S.Pushing) && x.state != S.Assigned && (registered ==> x.pc.LoadNodeState?)
    && (registered || x.pc.CasNodeState? || x.pc.ClearNext? || (x.pc.PollCas? && x.pc.strong) ==> s.word.Num?)
  }

  lemma PollTakesOne(s: S.State, w: nat, registered: bool)
    requires TakesOne(s, w, registered) && S.Enabled(s, S.PollStep(w)) && I.PollOk(s, w)
    requires s.waiters[w].pc.LoadNodeState? ==> registered
    ensures TakesOne(S.PollNext(s, w), w, false)
  {
    match s.waiters[w].pc
    case PollCas(_, _, _) =>
    case LoadNodeState(_) =>
    case CasNodeState(_, _) =>
    case ClearNext(_) =>
    case LinkPrev(_, _) =>
    case Revert =>
  }

  lemma ReleaseTakesOne(s: S.State, r: nat, w: nat, registered: bool)
    requires TakesOne(s, w, registered) && I.Inv(s) && S.Enabled(s, S.ReleaseStep(r))
    ensures TakesOne(S.ReleaseNext(s, r), w, registered)
  {
    hide I.Inv;
    NotPopped(s, r, w);
    match s.rel[r].pc
    case ReadHead =>
    case LoadNext(_) =>
    case LoadWord =>
    case AddPermits(_) =>
    case SkipStub(_) =>
    case LoadNext2(_) =>
    case TakeHead(_, _) =>
    case LoadTail(_) =>
    case ClearStub(_) =>
    case SwapTail(_) =>
    case LinkStub(_, _, _) =>
    case Recheck(_) =>
    case Notify(_, _) =>
    case FetchSub =>
  }

  lemma NotPopped(s: S.State, r: nat, w: nat)
    requires I.Inv(s) && S.Enabled(s, S.ReleaseStep(r)) && w in s.waiters
    requires s.waiters[w].loc == S.Away || s.waiters[w].loc == S.Pushing
    ensures s.rel[r].pc.TakeHead? ==> s.rel[r].pc.h != S.Node(w)
    ensures s.rel[r].pc.Notify? ==> s.rel[r].pc.w != w
  {
    assert s.holder == Some(r) && I.PlaceOk(s, s.front);
    hide I.Links, I.Polls, I.Counts, I.Orders, I.OneHolder, I.Placed;
  }

  lemma CallTakesOne(s: S.State, b: S.Action, w: nat, registered: bool)
    requires TakesOne(s, w, registered) && I.PollOk(s, w) && S.Enabled(s, b) && !b.PollStep? && !b.ReleaseStep?
    ensures TakesOne(S.Next(s, b), w, registered)
  {
    match b
    case PollCall(_, _) =>
    case Acquire(_) =>
    case Cancel(_) =>
    case ReleaseCall(_) =>
  }

  predicate Harmless(p: State, w: nat) { TakesOne(p.s, w, w in p.registered) }

  lemma SameRegistered(p: State, b: S.Action, w: nat)
    requires Enabled(p, Sem(b))
    ensures w in Next(p, Sem(b)).registered <==>
              w in p.registered && !(b == S.PollStep(w) && p.s.waiters[w].pc.LoadNodeState?)
  {
    hide S.Next, S.Enabled, A.Next, A.Enabled;
  }

  lemma StepHarmless(p: State, a: Action, w: nat)
    requires Inv(p) && Harmless(p, w) && Enabled(p, a) && a != Register(w)
    ensures Harmless(Next(p, a), w)
  {
    hide Inv, TakesOne, S.PollNext, S.ReleaseNext, S.Enabled, A.Next, A.Enabled, I.PollOk, I.Inv, R.Hands;
    InvOf(p);
    Sole(p.s, w, w in p.registered);
    PollFacts(p.s, w);
    match a {
      case Sem(b) =>
        SameRegistered(p, b, w);
        SemState(p, b);
        match b {
          case PollStep(v) => PollTakesOne(p.s, w, w in p.registered);
          case ReleaseStep(r) => ReleaseTakesOne(p.s, r, w, w in p.registered);
          case _ => CallTakesOne(p.s, b, w, w in p.registered);
        }
      case Register(v) =>
      case CellStep(v, i) =>
    }
  }

  lemma Sole(s: S.State, w: nat, registered: bool)
    requires TakesOne(s, w, registered)
    ensures w in s.waiters && forall v :: v in s.waiters ==> v == w
    ensures registered ==> s.waiters[w].pc.LoadNodeState?
    ensures s.waiters[w].state != S.Assigned
  {
    assert forall v :: v in s.waiters ==> v in s.waiters.Keys;
  }

  lemma {:induction false} RunHarmless(p: State, acts: seq<Action>, w: nat)
    requires Inv(p) && Harmless(p, w) && NoRegister(acts, w)
    ensures Harmless(Exec(p, acts), w)
    decreases |acts|
  {
    hide Inv, Harmless, Next, Enabled;
    if acts != [] {
      assert acts[0] in acts;
      forall a | a in acts[1..] ensures a != Register(w) { assert a in acts; }
      if Enabled(p, acts[0]) {
        StepInv(p, acts[0]);
        StepHarmless(p, acts[0], w);
      }
      RunHarmless(if Enabled(p, acts[0]) then Next(p, acts[0]) else p, acts[1..], w);
    }
  }

  /** A registration made while there are permits, by the only task there is. */
  lemma RegisterHarmless(p: State, w: nat)
    requires Good(p) && Enabled(p, Register(w)) && p.s.word.Num? && forall v :: v in p.s.waiters ==> v == w
    ensures Harmless(Next(p, Register(w)), w)
  {
    hide Inv, Apart, A.Next, A.Enabled, I.Inv, HandTail, S.Enabled;
    InvOf(p);
    HandsOf(p);
    NobodyQueued(p.s, w);
    assert p.s.waiters.Keys == {w};
  }

  // ----- the condition -----

  lemma {:induction false} NoRegisterFair(p: State, acts: seq<Action>, w: nat)
    requires NoRegister(acts, w)
    ensures FairRun(p, acts, w)
    decreases |acts|
  {
    hide Next, Enabled;
    if acts != [] {
      assert acts[0] in acts;
      forall a | a in acts[1..] ensures a != Register(w) { assert a in acts; }
      NoRegisterFair(if Enabled(p, acts[0]) then Next(p, acts[0]) else p, acts[1..], w);
    }
  }

  lemma CleanNeverStrands(p: State, acts: seq<Action>, w: nat)
    requires Good(p) && w in p.s.waiters && w in p.cells && Clean(p, w) && NoRegister(acts, w)
    ensures !Stranded(Exec(p, acts), w)
  {
    hide Inv, Apart, Exec, TimesTold;
    NoRegisterFair(p, acts, w);
    RunClean(p, acts, w);
    AssignedNotified(Exec(p, acts), w);
  }

  lemma HarmlessNeverStrands(p: State, acts: seq<Action>, w: nat)
    requires Inv(p) && Harmless(p, w) && NoRegister(acts, w)
    ensures !Stranded(Exec(p, acts), w)
  {
    hide Inv, Exec, TakesOne;
    RunHarmless(p, acts, w);
    var q := Exec(p, acts);
    Sole(q.s, w, w in q.registered);
  }

  lemma Strands(p: State, q: State, w: nat)
    requires Reach(p, q, w) && Stranded(q, w)
    ensures CanStrand(p, w)
  {
    hide Exec, Stranded;
  }

  /** The releasing thread behind a notifier. */
  lemma Notifier(p: State, w: nat) returns (r: nat)
    requires Good(p) && w in p.cells && TaskFree(p, w) && CellEngaged(p.cells[w])
    ensures r in p.s.rel
  {
    hide Inv, TaskRests, OneCellEach, HandTail;
    var i :| i in p.cells[w].threads && Engaged(p.cells[w].threads[i]);
    r := i - 1;
  }

  /** A task that has been notified before it asks, in a poll that can end in the queue, can be stranded. */
  lemma StrandEarly(p: State, w: nat, v: nat)
    requires Good(p) && Enabled(p, Register(w)) && CellEngaged(p.cells[w])
    requires p.s.word.Tail? || (v in p.s.waiters && v != w)
    ensures CanStrand(Next(p, Register(w)), w)
  {
    hide Inv, Apart, Reach, Told, A.Next, A.Enabled, TaskRests, CellEngaged, CanStrand, Stranded, S.Enabled, I.Inv;
    var r := Notifier(p, w);
    var p' := Next(p, Register(w));
    var q := ToldTooEarly(p, w);
    var m := q;
    if q.s.word.Num? {
      InvOf(q);
      HasTask(q, v);
      m := DrainPermits(q, v, w);
      ReachOn(p', q, m, w);
    }
    var n := PollAlone(m, w);
    ReachOn(p', m, n, w);
    PushesKeepKeys(m, n, w);
    ToldTwice(n, w);
    var z := StrandRequest(n, r, w);
    ReachOn(p', n, z, w);
    Strands(p', z, w);
  }

  /**
   * A registration can leave its task asleep with a permit exactly if a notifier of its cell has
   * the cell still to give back, and the poll can end in the queue: there is no permit to take, or
   * there is another task to take them all.
   */
  lemma RegistrationExact(p: State, w: nat)
    requires Good(p) && Enabled(p, Register(w))
    ensures CanStrand(Next(p, Register(w)), w) <==>
              CellEngaged(p.cells[w]) && (p.s.word.Tail? || exists v :: v in p.s.waiters && v != w)
  {
    hide Inv, Apart, Exec, A.Next, A.Enabled, CellEngaged, Stranded, S.Enabled, I.Inv, Clean, Harmless;
    var p' := Next(p, Register(w));
    if !CellEngaged(p.cells[w]) {
      RegisterGood(p, w);
      RegisterCleans(p, w);
      forall acts | NoRegister(acts, w) ensures !Stranded(Exec(p', acts), w) { CleanNeverStrands(p', acts, w); }
    } else if p.s.word.Tail? {
      StrandEarly(p, w, w);
    } else if v :| v in p.s.waiters && v != w {
      StrandEarly(p, w, v);
    } else {
      RegisterGood(p, w);
      RegisterHarmless(p, w);
      forall acts | NoRegister(acts, w) ensures !Stranded(Exec(p', acts), w) { HarmlessNeverStrands(p', acts, w); }
    }
  }

  lemma {:induction false} RunGood(p: State, acts: seq<Action>)
    requires Inv(p) && Apart(p)
    ensures Good(Exec(p, acts))
    decreases |acts|
  {
    hide Inv, Apart, Next, Enabled;
    if acts != [] {
      if Enabled(p, acts[0]) {
        StepInv(p, acts[0]);
        StepApart(p, acts[0]);
      }
      RunGood(if Enabled(p, acts[0]) then Next(p, acts[0]) else p, acts[1..]);
    }
  }

  lemma RegisterGood(p: State, w: nat)
    requires Good(p) && Enabled(p, Register(w))
    ensures Good(Next(p, Register(w))) && w in Next(p, Register(w)).cells
  {
    hide Inv, Apart, A.Next, A.Enabled, S.Enabled;
    StepInv(p, Register(w));
    StepApart(p, Register(w));
  }
}
