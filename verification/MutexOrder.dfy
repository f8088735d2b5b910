/**
 * The simulated mutex together with the simulated memory: taking and giving back a mutex are
 * points of sequential consistency, so what is done under one mutex is ordered by happens-before.
 */
module MutexOrder {
  import opened Wrappers
  import opened VersionVectors
  import opened Memory
  import opened HappensBefore
  import M = MutexMachine
  import X = MutexTheorems
  import T = MemoryTheorems

  /**
   * The mutexes with their threads, and the memory with its events.  The others are history: the
   * commands so far, the mutexes that its thread held during each event, the event that last took
   * each mutex, and how many events there were when a second thread was created.
   */
  datatype State =
    State(s: M.State, r: Run, cmds: seq<(nat, Cmd)>, under: seq<set<nat>>, taken: map<nat, nat>, alone: nat)

  /** What the active thread does: an action that concerns threads or mutexes, or an access to the memory. */
  datatype Action = Sched(a: M.Action) | Access(c: Cmd)

  /** What an action does to the memory. */
  function CmdOf(a: Action): Option<Cmd> {
    match a
    case Access(c) => Some(c)
    case Sched(b) =>
      match b
      case Spawn => Some(SpawnCmd)
      case Unpark(t) => Some(UnparkCmd(t))
      case FinishAcquire => Some(SeqCstCmd)
      case Release(_) => Some(SeqCstCmd)
      case _ => None
  }

  predicate Enabled(p: State, a: Action) {
    && !p.r.m.fault && p.s.active.Some? && p.s.active.value < |p.s.threads|
    && (match a
        case Access(c) => p.s.threads[p.s.active.value].stage.Free? && !c.SpawnCmd? && !c.UnparkCmd?
        case Sched(b) => M.Enabled(p.s, b))
    && (CmdOf(a).Some? ==> CmdOk(p.r.m, p.s.active.value, CmdOf(a).value))
  }

  function Held(s: M.State, t: nat): set<nat> { set m | m in s.locks && s.locks[m] == Some(t) }

  function SchedNext(p: State, a: Action): M.State
    requires Enabled(p, a)
  {
    if a.Sched? then M.Next(p.s, a.a) else p.s
  }

  function Next(p: State, a: Action): State
    requires Enabled(p, a)
  {
    var me, s' := p.s.active.value, SchedNext(p, a);
    match CmdOf(a)
    case None => p.(s := s')
    case Some(c) =>
      State(s', NextRun(p.r, me, c), p.cmds + [(me, c)], p.under + [Held(p.s, me) * Held(s', me)],
            if a == Sched(M.FinishAcquire) then p.taken[p.s.threads[me].stage.m := |p.r.tr|] else p.taken,
            if |p.s.threads| == 1 then |p.r.tr| + 1 else p.alone)
  }

  function Init(maxThreads: nat): State { State(M.Init(), Start(maxThreads), [], [], map[], 0) }

  function Exec(p: State, acts: seq<Action>): State
    decreases |acts|
  {
    if acts == [] then p else Exec(if Enabled(p, acts[0]) then Next(p, acts[0]) else p, acts[1..])
  }

  /** No waiter for a held mutex is unparked. */
  predicate Fair(p: State, a: Action)
    requires Enabled(p, a)
  {
    a.Sched? ==> X.Fair(p.s, a.a)
  }

  predicate FairRun(p: State, acts: seq<Action>)
    decreases |acts|
  {
    acts == [] ||
    (if Enabled(p, acts[0]) then Fair(p, acts[0]) && FairRun(Next(p, acts[0]), acts[1..]) else FairRun(p, acts[1..]))
  }

  // ----- the invariant -----

  predicate Fence(tr: seq<Event>, k: nat, t: nat) { k < |tr| && tr[k] == Event(t, SeqCstFence) }

  /** After event `a` its thread has given the mutex back, and before whoever holds it now took it. */
  ghost predicate GivenBack(p: State, a: nat, m: nat)
    requires a < |p.r.tr|
  {
    exists k: nat :: a < k && Fence(p.r.tr, k, p.r.tr[a].t) && (M.Locked(p.s, m) && m in p.taken ==> k < p.taken[m])
  }

  ghost predicate SectionOk(p: State, a: nat, m: nat)
    requires a < |p.r.tr|
  {
    (m in p.s.locks && p.s.locks[m] == Some(p.r.tr[a].t)) || GivenBack(p, a, m)
  }

  ghost predicate Sections(p: State)
    requires |p.under| == |p.r.tr|
  {
    forall a: nat, m: nat :: a < |p.r.tr| && m in p.under[a] ==> SectionOk(p, a, m)
  }

  predicate TakenOk(p: State) {
    forall m :: m in p.s.locks && p.s.locks[m].Some? ==>
      m in p.taken && Fence(p.r.tr, p.taken[m], p.s.locks[m].value)
  }

  /** Any two events under the same mutex are ordered. */
  ghost predicate Serialised(tr: seq<Event>, under: seq<set<nat>>)
    requires |under| == |tr|
  {
    forall a: nat, b: nat, m: nat :: a < b < |tr| && m in under[a] && m in under[b] ==> Before(tr, a, b)
  }

  /** Event `a` comes before, or is, the creation of thread `u`. */
  ghost predicate Spawned(tr: seq<Event>, a: nat, u: nat) {
    exists e: nat :: e < |tr| && tr[e].op == Spawn(u) && (a == e || Before(tr, a, e))
  }

  ghost predicate EarlyOk(p: State, a: nat)
    requires a < |p.r.tr|
  {
    p.r.tr[a].t == 0 && forall u: nat :: 0 < u < |p.s.threads| ==> Spawned(p.r.tr, a, u)
  }

  ghost predicate Early(p: State) {
    && p.alone <= |p.r.tr|
    && (|p.s.threads| == 1 ==> p.alone == |p.r.tr|)
    && (forall a: nat :: a < p.alone ==> EarlyOk(p, a))
    && (forall a: nat, b: nat :: a < p.alone && a < b < |p.r.tr| ==> Before(p.r.tr, a, b))
  }

  ghost predicate Inv(p: State, maxThreads: nat) {
    && X.Inv(p.s)
    && |p.under| == |p.r.tr|
    && 0 < |p.s.threads| == |p.r.m.x.threads|
    && p.r == Execute(Start(maxThreads), p.cmds)
    && Sections(p) && TakenOk(p) && Serialised(p.r.tr, p.under) && Early(p)
  }

  lemma InitInv(maxThreads: nat)
    requires maxThreads > 0
    ensures Inv(Init(maxThreads), maxThreads)
  {
    X.InitInv();
  }

  // ----- one more event -----

  lemma StillBefore(tr: seq<Event>, e: Event)
    ensures forall a: nat, b: nat :: b < |tr| && Before(tr, a, b) ==> Before(tr + [e], a, b)
  {
    hide Before;
    forall a: nat, b: nat | b < |tr| && Before(tr, a, b) ensures Before(tr + [e], a, b) {
      BeforePrefix(tr, tr + [e], a, b);
    }
  }

  /** A fence of the one thread and a later fence of the other order what is around them. */
  lemma FencesOrder(tr: seq<Event>, a: nat, k: nat, q: nat, b: nat)
    requires a < k < q < b < |tr| && Fence(tr, k, tr[a].t) && Fence(tr, q, tr[b].t)
    ensures Before(tr, a, b)
  {
    assert Edge(tr, a, k);
    assert IsSeqCst(tr[q]);
    assert SeqCstEdge(tr, k, b);
    assert Before(tr, a, k);
  }

  lemma SameThread(tr: seq<Event>, a: nat, b: nat)
    requires a < b < |tr| && tr[a].t == tr[b].t
    ensures Before(tr, a, b)
  {
    assert StartEdge(tr[a], tr[b]);
  }

  /** The next event of a thread comes after all events under a mutex that the thread holds. */
  lemma NextSerialised(p: State, e: Event, held: set<nat>)
    requires |p.under| == |p.r.tr| && Sections(p) && TakenOk(p) && Serialised(p.r.tr, p.under)
    requires held <= Held(p.s, e.t)
    ensures Serialised(p.r.tr + [e], p.under + [held])
  {
    hide Before, GivenBack;
    var tr, under, n := p.r.tr + [e], p.under + [held], |p.r.tr|;
    StillBefore(p.r.tr, e);
    forall a: nat, b: nat, m: nat | a < b < |tr| && m in under[a] && m in under[b] ensures Before(tr, a, b) {
      assert tr[a] == p.r.tr[a] && under[a] == p.under[a];
      if b < n {
        assert under[b] == p.under[b];
      } else {
        assert SectionOk(p, a, m);
        if tr[a].t == e.t {
          SameThread(tr, a, n);
        } else {
          var k := BackAt(p, a, m);
          assert tr[k] == p.r.tr[k] && tr[p.taken[m]] == p.r.tr[p.taken[m]];
          FencesOrder(tr, a, k, p.taken[m], n);
        }
      }
    }
  }

  lemma BackAt(p: State, a: nat, m: nat) returns (k: nat)
    requires a < |p.r.tr| && GivenBack(p, a, m)
    ensures a < k && Fence(p.r.tr, k, p.r.tr[a].t) && (M.Locked(p.s, m) && m in p.taken ==> k < p.taken[m])
  {
    k :| a < k && Fence(p.r.tr, k, p.r.tr[a].t) && (M.Locked(p.s, m) && m in p.taken ==> k < p.taken[m]);
  }

  // ----- the mutexes -----

  /** Which mutex an action takes, and which it gives back. */
  function Takes(s: M.State, b: M.Action): Option<nat>
    requires M.Enabled(s, b)
  {
    if b.FinishAcquire? then Some(s.threads[s.active.value].stage.m) else None
  }

  function Gives(b: M.Action): Option<nat> { if b.Release? then Some(b.m) else None }

  /** Only a free mutex is taken, and only by the thread that holds it is it given back. */
  lemma LocksMove(s: M.State, b: M.Action, m: nat)
    requires X.Inv(s) && M.Enabled(s, b)
    ensures var s', me := M.Next(s, b), s.active;
            if Takes(s, b) == Some(m) then !M.Locked(s, m) && m in s'.locks && s'.locks[m] == me
            else if Gives(b) == Some(m) then m in s.locks && s.locks[m] == me && !M.Locked(s', m)
            else (M.Locked(s', m) <==> M.Locked(s, m)) && (M.Locked(s, m) ==> s'.locks[m] == s.locks[m])
  {
    assert X.ThreadOk(s, s.active.value);
    match b
    case FinishAcquire =>
    case Release(_) =>
    case NewMutex =>
    case _ =>
  }

  /** The same for the joint machine. */
  lemma Moves(p: State, a: Action, m: nat)
    requires X.Inv(p.s) && Enabled(p, a)
    ensures var p', me := Next(p, a), p.s.active.value;
            if a.Sched? && Takes(p.s, a.a) == Some(m) then
              !M.Locked(p.s, m) && m in p'.s.locks && p'.s.locks[m] == Some(me)
              && m in p'.taken && p'.taken[m] == |p.r.tr|
              && p'.r.tr == p.r.tr + [Event(me, SeqCstFence)]
            else if a.Sched? && Gives(a.a) == Some(m) then
              m in p.s.locks && p.s.locks[m] == Some(me) && !M.Locked(p'.s, m)
              && p'.r.tr == p.r.tr + [Event(me, SeqCstFence)]
            else
              && (M.Locked(p'.s, m) <==> M.Locked(p.s, m)) && (M.Locked(p.s, m) ==> p'.s.locks[m] == p.s.locks[m])
              && (m in p'.taken <==> m in p.taken) && (m in p.taken ==> p'.taken[m] == p.taken[m])
              && p.r.tr <= p'.r.tr
  {
    hide X.Inv, M.Next, CmdOk, Do, RelOf;
    if a.Sched? { LocksMove(p.s, a.a, m); }
  }

  lemma SectionKept(p: State, a: Action, i: nat, m: nat)
    requires X.Inv(p.s) && Enabled(p, a) && i < |p.r.tr| && SectionOk(p, i, m) && p.r.tr <= Next(p, a).r.tr
    ensures SectionOk(Next(p, a), i, m)
  {
    hide X.Inv, Next, Enabled, Takes, Gives;
    var p', n := Next(p, a), |p.r.tr|;
    Moves(p, a, m);
    assert p'.r.tr[i] == p.r.tr[i];
    if m in p.s.locks && p.s.locks[m] == Some(p.r.tr[i].t) {
      if !(m in p'.s.locks && p'.s.locks[m] == Some(p.r.tr[i].t)) {
        assert Fence(p'.r.tr, n, p.r.tr[i].t);
      }
    } else {
      var k := BackAt(p, i, m);
      assert p'.r.tr[k] == p.r.tr[k];
      assert Fence(p'.r.tr, k, p'.r.tr[i].t);
    }
  }

  lemma Grows(p: State, a: Action)
    requires Enabled(p, a) && |p.under| == |p.r.tr|
    ensures var p' := Next(p, a);
            && p.r.tr <= p'.r.tr && |p'.under| == |p'.r.tr| && |p'.r.tr| <= |p.r.tr| + 1 && p.under <= p'.under
            && (CmdOf(a).None? ==> p'.r == p.r && p'.cmds == p.cmds && p'.under == p.under && p'.alone == p.alone)
            && (CmdOf(a).Some? ==> p'.r == NextRun(p.r, p.s.active.value, CmdOf(a).value)
                                   && p'.cmds == p.cmds + [(p.s.active.value, CmdOf(a).value)]
                                   && p'.r.tr[|p.r.tr|] == EventOf(p.r.m, p.s.active.value, CmdOf(a).value)
                                   && p'.under == p.under + [Held(p.s, p.s.active.value) * Held(p'.s, p.s.active.value)]
                                   && p'.alone == if |p.s.threads| == 1 then |p.r.tr| + 1 else p.alone)
  {
    hide M.Next, CmdOk, Do, RelOf, M.Enabled;
  }

  lemma NextSections(p: State, a: Action)
    requires X.Inv(p.s) && Enabled(p, a) && |p.under| == |p.r.tr| && Sections(p)
    ensures |Next(p, a).under| == |Next(p, a).r.tr| && Sections(Next(p, a))
  {
    hide X.Inv, Next, M.Enabled, SectionOk, CmdOk, NextRun;
    Grows(p, a);
    var p', n := Next(p, a), |p.r.tr|;
    forall i: nat, m: nat | i < |p'.r.tr| && m in p'.under[i] ensures SectionOk(p', i, m) {
      if i < n {
        assert m in p.under[i];
        SectionKept(p, a, i, m);
      } else {
        NewSection(p', i, m, p.s.active.value);
      }
    }
  }

  lemma NewSection(p: State, i: nat, m: nat, t: nat)
    requires i < |p.r.tr| && p.r.tr[i].t == t && m in Held(p.s, t)
    ensures SectionOk(p, i, m)
  {
  }

  lemma NextTaken(p: State, a: Action)
    requires X.Inv(p.s) && Enabled(p, a) && |p.under| == |p.r.tr| && TakenOk(p)
    ensures TakenOk(Next(p, a))
  {
    hide X.Inv, Next, Enabled, Takes, Gives, CmdOk, NextRun;
    Grows(p, a);
    var p', n := Next(p, a), |p.r.tr|;
    forall m | m in p'.s.locks && p'.s.locks[m].Some?
      ensures m in p'.taken && Fence(p'.r.tr, p'.taken[m], p'.s.locks[m].value)
    {
      Moves(p, a, m);
    }
  }

  lemma NextOrdered(p: State, a: Action)
    requires Enabled(p, a) && |p.under| == |p.r.tr| && Sections(p) && TakenOk(p) && Serialised(p.r.tr, p.under)
    ensures |Next(p, a).under| == |Next(p, a).r.tr| && Serialised(Next(p, a).r.tr, Next(p, a).under)
  {
    hide Next, M.Enabled, Sections, TakenOk, Serialised, Before, CmdOk;
    Grows(p, a);
    if CmdOf(a).Some? {
      var me := p.s.active.value;
      NextSerialised(p, EventOf(p.r.m, me, CmdOf(a).value), Held(p.s, me) * Held(Next(p, a).s, me));
    }
  }

  // ----- the events of the root thread before it creates another -----

  lemma ThreadsMove(p: State, a: Action)
    requires Enabled(p, a) && |p.s.threads| == |p.r.m.x.threads|
    ensures var p' := Next(p, a);
            && |p'.s.threads| == |p'.r.m.x.threads|
            && |p'.s.threads| == |p.s.threads| + (if CmdOf(a) == Some(SpawnCmd) then 1 else 0)
  {
    hide M.BlockOthers, M.WakeOthers, LoadOp, StoreOp, RmwOp, M.Pick, Join, Inc;
    if CmdOf(a).Some? { DoThreads(p.r.m, p.s.active.value, CmdOf(a).value); }
  }

  lemma DoThreads(m: Mem, t: nat, c: Cmd)
    requires CmdOk(m, t, c)
    ensures |Do(m, t, c).x.threads| == |m.x.threads| + (if c.SpawnCmd? then 1 else 0)
  {
  }

  /** What comes before the creation of a thread comes before all that the thread does. */
  lemma EarlyBefore(p: State, e: Event, a: nat)
    requires a < |p.r.tr| && EarlyOk(p, a) && e.t < |p.s.threads|
    ensures Before(p.r.tr + [e], a, |p.r.tr|)
  {
    var tr, n := p.r.tr + [e], |p.r.tr|;
    assert tr[a] == p.r.tr[a];
    if e.t == 0 {
      SameThread(tr, a, n);
    } else {
      assert Spawned(p.r.tr, a, e.t);
      var k: nat :| k < n && p.r.tr[k].op == Spawn(e.t) && (a == k || Before(p.r.tr, a, k));
      assert tr[k] == p.r.tr[k] && StartEdge(tr[k], tr[n]) && Edge(tr, k, n);
      StillBefore(p.r.tr, e);
    }
  }

  lemma SpawnedKept(tr: seq<Event>, e: Event, a: nat, u: nat)
    requires Spawned(tr, a, u)
    ensures Spawned(tr + [e], a, u)
  {
    var k: nat :| k < |tr| && tr[k].op == Spawn(u) && (a == k || Before(tr, a, k));
    assert (tr + [e])[k] == tr[k];
    StillBefore(tr, e);
  }

  /** One more event, with or without one more thread. */
  lemma EarlyKept(p: State, p': State, e: Event, i: nat)
    requires i < |p.r.tr| && EarlyOk(p, i) && e.t < |p.s.threads| && p'.r.tr == p.r.tr + [e]
    requires |p'.s.threads| == |p.s.threads| || (|p'.s.threads| == |p.s.threads| + 1 && e.op == Spawn(|p.s.threads|))
    ensures EarlyOk(p', i)
  {
    hide Before;
    forall u: nat | 0 < u < |p'.s.threads| ensures Spawned(p'.r.tr, i, u) {
      if u < |p.s.threads| {
        SpawnedKept(p.r.tr, e, i, u);
      } else {
        EarlyBefore(p, e, i);
        assert p'.r.tr[|p.r.tr|] == e;
      }
    }
  }

  /** The event itself, made while the root is alone. */
  lemma EarlyMade(p: State, p': State, e: Event)
    requires |p.s.threads| == 1 && e.t == 0 && p'.r.tr == p.r.tr + [e]
    requires |p'.s.threads| == 1 || (|p'.s.threads| == 2 && e.op == Spawn(1))
    ensures EarlyOk(p', |p.r.tr|)
  {
    hide Before;
    assert p'.r.tr[|p.r.tr|] == e;
  }

  lemma NextEarly(p: State, a: Action)
    requires Enabled(p, a) && |p.under| == |p.r.tr| && |p.s.threads| == |p.r.m.x.threads| && Early(p)
    ensures Early(Next(p, a))
  {
    hide Next, M.Enabled, CmdOk, Before, EarlyOk, NextRun;
    Grows(p, a);
    ThreadsMove(p, a);
    var p' := Next(p, a);
    if CmdOf(a).Some? {
      OneEarly(p, p', EventAt(p, a));
    } else {
      forall i: nat | i < p'.alone ensures EarlyOk(p', i) { EarlySame(p, p', i); }
    }
  }

  lemma EarlySame(p: State, p': State, i: nat)
    requires p'.r == p.r && |p'.s.threads| == |p.s.threads| && i < |p.r.tr| && EarlyOk(p, i)
    ensures EarlyOk(p', i)
  {
  }

  /** The event that an action is. */
  function EventAt(p: State, a: Action): (e: Event)
    requires Enabled(p, a) && CmdOf(a).Some?
    ensures e.t == p.s.active.value && (e.op.Spawn? <==> CmdOf(a) == Some(SpawnCmd))
    ensures e.op.Spawn? ==> e.op.u == |p.r.m.x.threads|
  {
    EventOf(p.r.m, p.s.active.value, CmdOf(a).value)
  }

  lemma OneEarly(p: State, p': State, e: Event)
    requires Early(p) && e.t < |p.s.threads| && p'.r.tr == p.r.tr + [e]
    requires |p'.s.threads| == |p.s.threads| + (if e.op.Spawn? then 1 else 0)
    requires e.op.Spawn? ==> e.op.u == |p.s.threads|
    requires p'.alone == if |p.s.threads| == 1 then |p.r.tr| + 1 else p.alone
    ensures Early(p')
  {
    hide Before, EarlyOk;
    var n := |p.r.tr|;
    forall i: nat | i < p'.alone ensures EarlyOk(p', i) {
      if i < n { EarlyKept(p, p', e, i); } else { EarlyMade(p, p', e); }
    }
    StillBefore(p.r.tr, e);
    forall a: nat, b: nat | a < p'.alone && a < b < |p'.r.tr| ensures Before(p'.r.tr, a, b) {
      if b == n { EarlyBefore(p, e, a); }
    }
  }

  // ----- every run -----

  lemma {:induction false} ExecuteSnoc(r: Run, cmds: seq<(nat, Cmd)>, t: nat, c: Cmd)
    requires CmdOk(Execute(r, cmds).m, t, c)
    ensures Execute(r, cmds + [(t, c)]) == NextRun(Execute(r, cmds), t, c)
    decreases |cmds|
  {
    hide CmdOk, NextRun;
    if cmds == [] {
      assert [] + [(t, c)] == [(t, c)] && [(t, c)][1..] == [];
      assert Execute(NextRun(r, t, c), []) == NextRun(r, t, c);
    } else {
      assert (cmds + [(t, c)])[1..] == cmds[1..] + [(t, c)];
      ExecuteSnoc(if CmdOk(r.m, cmds[0].0, cmds[0].1) then NextRun(r, cmds[0].0, cmds[0].1) else r, cmds[1..], t, c);
    }
  }

  lemma NextMemory(p: State, a: Action, maxThreads: nat)
    requires Enabled(p, a) && p.r == Execute(Start(maxThreads), p.cmds)
    ensures Next(p, a).r == Execute(Start(maxThreads), Next(p, a).cmds)
  {
    hide CmdOk, NextRun, Execute, Start, M.Next, M.Enabled;
    if CmdOf(a).Some? { ExecuteSnoc(Start(maxThreads), p.cmds, p.s.active.value, CmdOf(a).value); }
  }

  lemma NextMutexes(p: State, a: Action)
    requires X.Inv(p.s) && Enabled(p, a) && Fair(p, a)
    ensures X.Inv(Next(p, a).s)
  {
    hide X.Inv, M.Next, CmdOk, NextRun, M.Enabled;
    if a.Sched? { X.StepInv(p.s, a.a); }
  }

  lemma StepInv(p: State, a: Action, maxThreads: nat)
    requires Inv(p, maxThreads) && Enabled(p, a) && Fair(p, a)
    ensures Inv(Next(p, a), maxThreads)
  {
    hide X.Inv, Next, Enabled, Fair, Sections, TakenOk, Serialised, Early, Execute, Start;
    NextMutexes(p, a);
    NextSections(p, a);
    NextTaken(p, a);
    NextOrdered(p, a);
    NextEarly(p, a);
    NextMemory(p, a, maxThreads);
    ThreadsMove(p, a);
  }

  lemma {:induction false} RunInv(p: State, acts: seq<Action>, maxThreads: nat)
    requires Inv(p, maxThreads) && FairRun(p, acts)
    ensures Inv(Exec(p, acts), maxThreads)
    decreases |acts|
  {
    hide Inv, Next, Fair;
    if acts != [] {
      if Enabled(p, acts[0]) {
        StepInv(p, acts[0], maxThreads);
        RunInv(Next(p, acts[0]), acts[1..], maxThreads);
      } else {
        RunInv(p, acts[1..], maxThreads);
      }
    }
  }

  // ----- the theorems -----

  /** In every fair schedule, what is done under a mutex comes before whatever is done under it later. */
  lemma SectionsOrdered(maxThreads: nat, acts: seq<Action>, a: nat, b: nat, m: nat)
    requires maxThreads > 0 && FairRun(Init(maxThreads), acts)
    ensures var p := Exec(Init(maxThreads), acts);
            && |p.under| == |p.r.tr|
            && (a < b < |p.r.tr| && m in p.under[a] && m in p.under[b] ==> Before(p.r.tr, a, b))
  {
    InitInv(maxThreads);
    RunInv(Init(maxThreads), acts, maxThreads);
  }

  /** The root's events before it creates a thread come before all others. */
  lemma RootFirst(maxThreads: nat, acts: seq<Action>, a: nat, b: nat)
    requires maxThreads > 0 && FairRun(Init(maxThreads), acts)
    ensures var p := Exec(Init(maxThreads), acts); a < p.alone && a < b < |p.r.tr| ==> Before(p.r.tr, a, b)
  {
    InitInv(maxThreads);
    RunInv(Init(maxThreads), acts, maxThreads);
  }

  predicate OnCell(e: Event, c: nat) { T.ChangesCell(e, c) || e.op == CellRead(c) }

  /** Each cell has a mutex that every access holds, except those made before there is a second thread. */
  ghost predicate Guarded(p: State, guard: map<nat, nat>) {
    forall i: nat, c: nat :: i < |p.r.tr| && OnCell(p.r.tr[i], c) ==>
      i < p.alone || (c in guard && i < |p.under| && guard[c] in p.under[i])
  }

  lemma GuardedOrdered(p: State, maxThreads: nat, guard: map<nat, nat>)
    requires Inv(p, maxThreads) && Guarded(p, guard)
    ensures T.CellsOrdered(p.r.tr)
  {
    hide Before, X.Inv, Sections, TakenOk, EarlyOk;
    forall a: nat, b: nat, c: nat
      | a < b < |p.r.tr| && T.ChangesCell(p.r.tr[a], c) && p.r.tr[b].op in {CellRead(c), CellWrite(c)}
      ensures Before(p.r.tr, a, b)
    {
      assert OnCell(p.r.tr[a], c) && OnCell(p.r.tr[b], c);
      if a >= p.alone { assert guard[c] in p.under[a] && guard[c] in p.under[b]; }
    }
  }

  /** A cell whose accesses are guarded by a mutex never fails a causality assertion, in any fair schedule. */
  lemma GuardedCellsPass(maxThreads: nat, acts: seq<Action>, guard: map<nat, nat>)
    requires maxThreads > 0 && FairRun(Init(maxThreads), acts)
    requires Guarded(Exec(Init(maxThreads), acts), guard)
    ensures !Exec(Init(maxThreads), acts).r.m.fault
  {
    hide Guarded, T.CellsOrdered, Sections, TakenOk, Serialised, Early;
    InitInv(maxThreads);
    RunInv(Init(maxThreads), acts, maxThreads);
    var p := Exec(Init(maxThreads), acts);
    GuardedOrdered(p, maxThreads, guard);
    T.NoFalseAlarm(maxThreads, p.cmds);
  }
}
