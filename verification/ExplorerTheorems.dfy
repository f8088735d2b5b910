/** What a finished exploration has done, told in terms of the program under test. */
module ExplorerTheorems {
  import opened Wrappers
  import opened PathModel
  import opened PathTheorems
  import opened Explorer
  import opened PathMarks

  /** A finished exploration of a well-behaved program. */
  ghost predicate Finished(p: Program, log: seq<seq<Node>>, depth: nat, breadth: nat) {
    && WellBehaved(p, depth, breadth) && log != [] && Explored(p, log) && Successor(log[|log| - 1]) == None
  }

  /** A branch point that execution `k` did not create was on the path of execution `k - 1`, after the same choices. */
  lemma OlderBranch(p: Program, log: seq<seq<Node>>, k: nat, i: nat)
    requires Explored(p, log) && k < |log| && i < |Start(log, k)|
    ensures k > 0 && i < |log[k - 1]| && i < |log[k]| && Choices(log[k - 1])[..i] == Choices(log[k])[..i]
    ensures Continues(log[k - 1], log[k]) && forall n :: n in log[k - 1] ==> GoodNode(n)
  {
    assert Executed(p, Start(log, k), log[k]);
    var v := log[k - 1];
    assert Executed(p, Start(log, k - 1), v);
    SuccessorShape(v);
    NextRun(v, log[k], i);
  }

  lemma NewBranch(p: Program, log: seq<seq<Node>>, k: nat, i: nat)
    requires Explored(p, log) && k < |log| && |Start(log, k)| <= i < |log[k]|
    ensures p.next(Choices(log[k])[..i]).Some? && Marked(p.next(Choices(log[k])[..i]).value, log[k][i])
  {
    assert Executed(p, Start(log, k), log[k]);
  }

  /** Every write that a load could read there, and the thread scheduled there by default, has been chosen. */
  lemma {:induction false} SeedsTaken(p: Program, log: seq<seq<Node>>, k: nat, i: nat, c: Choice, depth: nat,
          breadth: nat)
    requires Finished(p, log, depth, breadth) && k < |log| && i < |log[k]|
    requires p.next(Choices(log[k])[..i]).Some? && Offered(p.next(Choices(log[k])[..i]).value, c)
    ensures Taken(log, Choices(log[k])[..i] + [c])
    decreases k
  {
    hide Taken, Continues, Choices, Explored, WellBehaved, Offered, ChoiceOf, Marked, Successor, Executed;
    if i < |Start(log, k)| {
      OlderBranch(p, log, k, i);
      SeedsTaken(p, log, k - 1, i, c, depth, breadth);
    } else {
      NewSeedTaken(p, log, k, i, c, depth, breadth);
    }
  }

  lemma NewSeedTaken(p: Program, log: seq<seq<Node>>, k: nat, i: nat, c: Choice, depth: nat, breadth: nat)
    requires Finished(p, log, depth, breadth) && k < |log| && |Start(log, k)| <= i < |log[k]|
    requires p.next(Choices(log[k])[..i]).Some? && Offered(p.next(Choices(log[k])[..i]).value, c)
    ensures Taken(log, Choices(log[k])[..i] + [c])
  {
    var n := p.next(Choices(log[k])[..i]).value;
    assert Seeded(n, breadth);
    hide Explored, WellBehaved, Taken, Choices;
    NewBranch(p, log, k, i);
    ExploredExploration(p, log, depth, breadth);
    MarkedKeeps(n, log[k][i]);
    ExplorationComplete(log, k, i, c);
  }

  /** A visited thread has been run by some execution after the same choices. */
  lemma {:induction false} VisitedTaken(p: Program, log: seq<seq<Node>>, k: nat, i: nat, t: nat, depth: nat,
          breadth: nat)
    requires Finished(p, log, depth, breadth) && k < |log| && i < |log[k]|
    requires log[k][i].Threads? && t < |log[k][i].ts| && log[k][i].ts[t] == Visited
    ensures Taken(log, Choices(log[k])[..i] + [Run(Some(t))])
    decreases k
  {
    hide Taken, Continues, Choices, Explored, WellBehaved, Offered, ChoiceOf, Marked, Successor, Executed;
    if i < |Start(log, k)| {
      OlderVisited(p, log, k, i, t);
      if log[k - 1][i].ts[t] == Visited {
        VisitedTaken(p, log, k - 1, i, t, depth, breadth);
      } else {
        ChosenTaken(log, k - 1, i);
      }
    } else {
      NewUnvisited(p, log, k, i, t, depth, breadth);
    }
  }

  /** A visited thread was visited before, or was the choice of the execution before. */
  lemma OlderVisited(p: Program, log: seq<seq<Node>>, k: nat, i: nat, t: nat)
    requires Explored(p, log) && k < |log| && i < |log[k]| && i < |Start(log, k)|
    requires log[k][i].Threads? && t < |log[k][i].ts| && log[k][i].ts[t] == Visited
    ensures k > 0 && i < |log[k - 1]| && Choices(log[k - 1])[..i] == Choices(log[k])[..i]
    ensures var n := log[k - 1][i];
            n.Threads? && t < |n.ts| && (n.ts[t] == Visited || ChoiceOf(n) == Run(Some(t)))
  {
    OlderBranch(p, log, k, i);
    NextRun(log[k - 1], log[k], i);
    hide Explored, Continues, Choices;
    var n := log[k - 1][i];
    if i == |Successor(log[k - 1]).value| - 1 && n.ts[t] != Visited { AdvancedVisited(n, t); }
  }

  /** A branch point that an execution created has no visited thread yet. */
  lemma NewUnvisited(p: Program, log: seq<seq<Node>>, k: nat, i: nat, t: nat, depth: nat, breadth: nat)
    requires WellBehaved(p, depth, breadth) && Explored(p, log) && k < |log| && |Start(log, k)| <= i < |log[k]|
    requires log[k][i].Threads? && t < |log[k][i].ts|
    ensures log[k][i].ts[t] != Visited
  {
    NewBranch(p, log, k, i);
    hide Explored;
    var n := p.next(Choices(log[k])[..i]).value;
    assert Seeded(n, breadth);
    assert n.ts[t] != Visited;
  }

  lemma AdvancedVisited(n: Node, t: nat)
    requires n.Threads? && Advance(n).Some? && t < |n.ts| && Advance(n).value.ts[t] == Visited != n.ts[t]
    ensures ChoiceOf(n) == Run(Some(t))
  {
  }

  /**
   * Every backtrack that any execution asked for has been carried out: the thread it named has
   * been scheduled at the branch point it named, unless it was disabled there.
   */
  lemma BacktracksTaken(p: Program, log: seq<seq<Node>>, k: nat, j: nat, x: nat, depth: nat, breadth: nat)
    requires Finished(p, log, depth, breadth) && k < |log| && j <= |log[k]| && x < |p.marks(Choices(log[k])[..j])|
    ensures var (i, t) := p.marks(Choices(log[k])[..j])[x];
            var q := Choices(log[k])[..i];
            && p.next(q).Some? && p.next(q).value.Threads? && t < |p.next(q).value.ts|
            && (p.next(q).value.ts[t] == Disabled || Taken(log, q + [Run(Some(t))]))
  {
    var m := p.marks(Choices(log[k])[..j])[x];
    MarkKept(p, log, k, j, x, depth, breadth);
    EntryTaken(p, log, k, m.0, m.1, depth, breadth);
  }

  lemma MarkKept(p: Program, log: seq<seq<Node>>, k: nat, j: nat, x: nat, depth: nat, breadth: nat)
    requires Finished(p, log, depth, breadth) && k < |log| && j <= |log[k]| && x < |p.marks(Choices(log[k])[..j])|
    ensures var (i, t) := p.marks(Choices(log[k])[..j])[x];
            && MarkSeen(log[k], (i, t)) && p.next(Choices(log[k])[..i]).Some?
            && Shape(p.next(Choices(log[k])[..i]).value, log[k][i])
  {
    hide Successor, Choices, Executed, MarkSeen, MarkOk, Explored, WellBehaved;
    ExecutedAt(p, log, k);
    MarkAsked(p, Choices(log[k])[..j], x, depth, breadth);
    MarkHonoured(p, Start(log, k), log[k], j, x);
  }

  lemma ExecutedAt(p: Program, log: seq<seq<Node>>, k: nat)
    requires Explored(p, log) && k < |log|
    ensures Executed(p, Start(log, k), log[k])
  {
  }

  lemma MarkAsked(p: Program, q: seq<Choice>, x: nat, depth: nat, breadth: nat)
    requires WellBehaved(p, depth, breadth) && x < |p.marks(q)|
    ensures MarkOk(p, q, p.marks(q)[x])
  {
  }

  lemma MarkHonoured(p: Program, v: seq<Node>, u: seq<Node>, j: nat, x: nat)
    requires Executed(p, v, u) && j <= |u| && x < |p.marks(Choices(u)[..j])|
    requires MarkOk(p, Choices(u)[..j], p.marks(Choices(u)[..j])[x])
    ensures var m := p.marks(Choices(u)[..j])[x];
            MarkSeen(u, m) && p.next(Choices(u)[..m.0]).Some? && Shape(p.next(Choices(u)[..m.0]).value, u[m.0])
  {
    hide Extends, Fresh, Shape, Marked, GoodNode;
    var m := p.marks(Choices(u)[..j])[x];
    assert Choices(u)[..j][..m.0] == Choices(u)[..m.0];
    assert MarkSeen(u, m) by { if j == |u| { assert Choices(u)[..j] == Choices(u); } }
  }

  lemma EntryOffered(n: Node, t: nat)
    requires GoodNode(n) && n.Threads? && t < |n.ts| && (n.ts[t] == Active || n.ts[t] == Pending)
    ensures Offered(n, Run(Some(t)))
  {
    if n.ts[t] == Active { assert n.ts[First(n.ts, Active)] == Active; }
  }

  lemma ExecutedGood(p: Program, log: seq<seq<Node>>, k: nat, i: nat)
    requires Explored(p, log) && k < |log| && i < |log[k]|
    ensures GoodNode(log[k][i])
  {
    assert Executed(p, Start(log, k), log[k]);
  }

  /** A thread that is neither skipped nor disabled at the end of an execution is run there. */
  lemma EntryTaken(p: Program, log: seq<seq<Node>>, k: nat, i: nat, t: nat, depth: nat, breadth: nat)
    requires Finished(p, log, depth, breadth) && k < |log| && MarkSeen(log[k], (i, t))
    ensures log[k][i].ts[t] == Disabled || Taken(log, Choices(log[k])[..i] + [Run(Some(t))])
  {
    hide Taken, Choices, Offered, Waiting, Successor, Explored, WellBehaved, GoodNode;
    var n := log[k][i];
    if n.ts[t] == Visited {
      VisitedTaken(p, log, k, i, t, depth, breadth);
    } else if n.ts[t] != Disabled {
      ExploredExploration(p, log, depth, breadth);
      ExecutedGood(p, log, k, i);
      EntryOffered(n, t);
      ExplorationComplete(log, k, i, Run(Some(t)));
    }
  }

  // ----- exactly what backtracks ask for -----

  /** All backtracks that execution `k` asked for, in order. */
  function MarksIn(p: Program, u: seq<Node>): seq<(nat, nat)> { MarksUpTo(p, Choices(u), |u| + 1) }

  /** The threads of branch point `i` as execution `k` found them, or as they were seeded. */
  ghost predicate Found(p: Program, log: seq<seq<Node>>, k: nat, i: nat, ts: seq<ThreadState>)
    requires k < |log| && i < |log[k]|
  {
    Base(p, Start(log, k), Choices(log[k]), i) == Some(Threads(ts))
  }

  /** In execution `k`, a backtrack named thread `s` at branch point `i`, or one that was waiting there already. */
  ghost predicate Asked(p: Program, log: seq<seq<Node>>, k: nat, i: nat, s: nat)
    requires k < |log| && i < |log[k]|
  {
    var n := Base(p, Start(log, k), Choices(log[k]), i);
    && n.Some? && n.value.Threads?
    && ((i, s) in MarksIn(p, log[k]) || Repeated(n.value.ts, Named(MarksIn(p, log[k]), i)))
  }

  lemma {:induction false} MarksFitIn(p: Program, u: seq<Node>, n: nat, i: nat)
    requires n <= |u| + 1 && i <= |u| && forall j :: 0 <= j <= |u| ==> AllFit(p, Choices(u)[..j])
    ensures forall t :: (i, t) in MarksUpTo(p, Choices(u), n) ==>
              var b := p.next(Choices(u)[..i]); b.Some? && b.value.Threads? && t < |b.value.ts|
  {
    if n > 0 {
      MarksFitIn(p, u, n - 1, i);
      var q := Choices(u)[..n - 1];
      var ms, b := p.marks(q), p.next(Choices(u)[..i]);
      forall t | (i, t) in ms ensures b.Some? && b.value.Threads? && t < |b.value.ts| {
        var x :| 0 <= x < |ms| && ms[x] == (i, t);
        assert AllFit(p, q) && MarkFits(p, q, p.marks(q)[x]);
        assert q[..i] == Choices(u)[..i];
      }
    }
  }

  /** What an execution leaves of a thread branch point: what it found, and what it asked for. */
  lemma BranchLeft(p: Program, log: seq<seq<Node>>, k: nat, i: nat, ts: seq<ThreadState>, s: nat, depth: nat,
          breadth: nat)
    requires WellBehaved(p, depth, breadth) && Explored(p, log) && k < |log| && i < |log[k]|
    requires Found(p, log, k, i, ts) && s < |ts|
    ensures log[k][i].Threads? && |log[k][i].ts| == |ts|
    ensures log[k][i].ts[s] == if ts[s] == Skip && Asked(p, log, k, i, s) then Pending else ts[s]
  {
    hide Explored, Executed, WellBehaved, AllFit, Repeated, AfterMarks, MarksUpTo, Choices, Named, Start;
    var u, ms := log[k], MarksIn(p, log[k]);
    ExecutedAt(p, log, k);
    forall j | 0 <= j <= |u| ensures AllFit(p, Choices(u)[..j]) { CompletedFit(p, log, k, j, depth, breadth); }
    MarksFitIn(p, u, |u| + 1, i);
    NamedOnly(ms, i);
    SameThreads(p, Start(log, k), u, i, ts);
    forall t | t in Named(ms, i) ensures t < |ts| { assert (i, t) in ms; }
    MarksLeave(ts, Named(ms, i), s);
  }

  lemma SameThreads(p: Program, v: seq<Node>, u: seq<Node>, i: nat, ts: seq<ThreadState>)
    requires Executed(p, v, u) && i < |u| && Base(p, v, Choices(u), i) == Some(Threads(ts))
    ensures p.next(Choices(u)[..i]).Some? && p.next(Choices(u)[..i]).value.Threads?
    ensures |ts| == |p.next(Choices(u)[..i]).value.ts|
    ensures u[i] == AfterMarks(Threads(ts), Named(MarksIn(p, u), i))
  {
    assert Shape(p.next(Choices(u)[..i]).value, u[i]);
    if i < |v| { assert Marked(v[i], u[i]); }
  }

  /**
   * Two backtracks for one thread that is waiting at a branch point, in one execution or in two,
   * and every thread that can run there is run, after the same choices.
   */
  lemma RepeatedMarksTaken(p: Program, log: seq<seq<Node>>, k: nat, i: nat, ts: seq<ThreadState>, s: nat, depth: nat,
          breadth: nat)
    requires Finished(p, log, depth, breadth) && k < |log| && i < |log[k]|
    requires Found(p, log, k, i, ts) && s < |ts| && Repeated(ts, Named(MarksIn(p, log[k]), i))
    ensures ts[s] == Disabled || Taken(log, Choices(log[k])[..i] + [Run(Some(s))])
  {
    hide Repeated, Explored, WellBehaved, Taken, MarksIn, Successor;
    BranchLeft(p, log, k, i, ts, s, depth, breadth);
    EntryTaken(p, log, k, i, s, depth, breadth);
  }

  /** An older branch point is found as the execution before left it, but that the next alternative may be active. */
  lemma FoundOlder(p: Program, log: seq<seq<Node>>, k: nat, i: nat, s: nat)
    requires Explored(p, log) && k < |log| && i < |Start(log, k)| && i < |log[k]|
    requires Start(log, k)[i].Threads? && s < |Start(log, k)[i].ts|
    requires Start(log, k)[i].ts[s] != Skip && Start(log, k)[i].ts[s] != Disabled
    ensures k > 0 && i < |log[k - 1]| && Choices(log[k - 1])[..i] == Choices(log[k])[..i]
    ensures log[k - 1][i].Threads? && s < |log[k - 1][i].ts|
    ensures log[k - 1][i].ts[s] != Skip && log[k - 1][i].ts[s] != Disabled
  {
    hide Explored, Continues, Choices, Successor, Advance, GoodNode;
    OlderBranch(p, log, k, i);
    SuccessorShape(log[k - 1]);
    var w := Start(log, k);
    if i < |w| - 1 {
      assert w[i] == w[..|w| - 1][i] == log[k - 1][..|w| - 1][i];
    } else {
      AdvancedEntry(log[k - 1][i], s);
    }
  }

  lemma AdvancedEntry(n: Node, s: nat)
    requires Advance(n).Some? && Advance(n).value.Threads? && s < |Advance(n).value.ts|
    ensures n.Threads? && s < |n.ts|
    ensures n.ts[s] == Skip || n.ts[s] == Disabled ==> Advance(n).value.ts[s] == n.ts[s]
  {
  }

  /** Some execution that makes the choices `q` asks for thread `s` at the branch point after them. */
  ghost predicate AskedSomewhere(p: Program, log: seq<seq<Node>>, q: seq<Choice>, s: nat) {
    exists m :: 0 <= m < |log| && |q| < |log[m]| && Choices(log[m])[..|q|] == q && Asked(p, log, m, |q|, s)
  }

  lemma FoundAt(p: Program, log: seq<seq<Node>>, k: nat, i: nat) returns (ts: seq<ThreadState>)
    requires Explored(p, log) && k < |log| && i < |log[k]| && log[k][i].Threads?
    ensures Found(p, log, k, i, ts) && |ts| == |log[k][i].ts|
    ensures p.next(Choices(log[k])[..i]).Some? && p.next(Choices(log[k])[..i]).value.Threads?
    ensures |ts| == |p.next(Choices(log[k])[..i]).value.ts|
  {
    assert Executed(p, Start(log, k), log[k]);
    assert Shape(p.next(Choices(log[k])[..i]).value, log[k][i]);
    if i < |Start(log, k)| { assert Marked(Start(log, k)[i], log[k][i]); }
    ts := Base(p, Start(log, k), Choices(log[k]), i).value.ts;
  }

  lemma SeededActive(p: Program, q: seq<Choice>, s: nat, depth: nat, breadth: nat)
    requires WellBehaved(p, depth, breadth) && p.next(q).Some? && p.next(q).value.Threads? && s < |p.next(q).value.ts|
    requires p.next(q).value.ts[s] != Skip && p.next(q).value.ts[s] != Disabled
    ensures ChoiceOf(p.next(q).value) == Run(Some(s))
  {
    var n := p.next(q).value;
    assert Seeded(n, breadth);
    hide WellBehaved;
    assert n.ts[s] != Pending && n.ts[s] != Visited;
    assert n.ts[First(n.ts, Active)] == Active;
  }

  /** What is explored at a branch point, or waits to be, is its default or was asked for. */
  lemma {:induction false} OnlyAsked(p: Program, log: seq<seq<Node>>, k: nat, i: nat, s: nat, depth: nat, breadth: nat)
    requires WellBehaved(p, depth, breadth) && Explored(p, log) && k < |log| && i < |log[k]|
    requires log[k][i].Threads? && s < |log[k][i].ts| && log[k][i].ts[s] != Skip && log[k][i].ts[s] != Disabled
    ensures var q := Choices(log[k])[..i];
            && p.next(q).Some? && (ChoiceOf(p.next(q).value) == Run(Some(s)) || AskedSomewhere(p, log, q, s))
    decreases k
  {
    hide Explored, WellBehaved, Choices, Asked, ChoiceOf, Start;
    var ts := FoundAt(p, log, k, i);
    BranchLeft(p, log, k, i, ts, s, depth, breadth);
    var q := Choices(log[k])[..i];
    if ts[s] == Skip {
      assert Asked(p, log, k, |q|, s);
    } else if i < |Start(log, k)| {
      FoundOlder(p, log, k, i, s);
      OnlyAsked(p, log, k - 1, i, s, depth, breadth);
    } else {
      SeededActive(p, q, s, depth, breadth);
    }
  }

  /** A thread that some execution asks for is run, unless it cannot run there. */
  lemma AskedTaken(p: Program, log: seq<seq<Node>>, m: nat, i: nat, s: nat, depth: nat, breadth: nat)
    requires Finished(p, log, depth, breadth) && m < |log| && i < |log[m]| && Asked(p, log, m, i, s)
    requires log[m][i].Threads? && s < |log[m][i].ts|
    ensures log[m][i].ts[s] == Disabled || Taken(log, Choices(log[m])[..i] + [Run(Some(s))])
  {
    hide Explored, WellBehaved, Taken, Asked, Successor, Choices;
    var ts := FoundAt(p, log, m, i);
    BranchLeft(p, log, m, i, ts, s, depth, breadth);
    EntryTaken(p, log, m, i, s, depth, breadth);
  }

  /**
   * A thread has been run after the choices `q` exactly if it is scheduled there by default, or can
   * run there and some execution that makes these choices asks for it there.
   */
  lemma RunExactly(p: Program, log: seq<seq<Node>>, k: nat, i: nat, s: nat, depth: nat, breadth: nat)
    requires Finished(p, log, depth, breadth) && k < |log| && i < |log[k]|
    requires log[k][i].Threads? && s < |log[k][i].ts|
    ensures var q := Choices(log[k])[..i];
            && p.next(q).Some? && p.next(q).value.Threads? && s < |p.next(q).value.ts|
            && (Taken(log, q + [Run(Some(s))]) <==>
                  || ChoiceOf(p.next(q).value) == Run(Some(s))
                  || (p.next(q).value.ts[s] != Disabled && AskedSomewhere(p, log, q, s)))
  {
    hide Explored, WellBehaved, Taken, Asked, Successor, Choices, ChoiceOf;
    var q := Choices(log[k])[..i];
    var ts := FoundAt(p, log, k, i);
    if Taken(log, q + [Run(Some(s))]) { TakenWasAsked(p, log, q, s, depth, breadth); }
    if ChoiceOf(p.next(q).value) == Run(Some(s)) {
      SeedsTaken(p, log, k, i, Run(Some(s)), depth, breadth);
    } else if p.next(q).value.ts[s] != Disabled && AskedSomewhere(p, log, q, s) {
      var m :| 0 <= m < |log| && i < |log[m]| && Choices(log[m])[..i] == q && Asked(p, log, m, i, s);
      BranchShape(p, log, m, i);
      AskedTaken(p, log, m, i, s, depth, breadth);
    }
  }

  lemma BranchShape(p: Program, log: seq<seq<Node>>, k: nat, i: nat)
    requires Explored(p, log) && k < |log| && i < |log[k]|
    ensures var n := p.next(Choices(log[k])[..i]); n.Some? && Shape(n.value, log[k][i])
  {
    assert Executed(p, Start(log, k), log[k]);
  }

  lemma TakenWasAsked(p: Program, log: seq<seq<Node>>, q: seq<Choice>, s: nat, depth: nat, breadth: nat)
    requires WellBehaved(p, depth, breadth) && Explored(p, log) && Taken(log, q + [Run(Some(s))])
    ensures p.next(q).Some? && p.next(q).value.Threads? && s < |p.next(q).value.ts| && p.next(q).value.ts[s] != Disabled
    ensures ChoiceOf(p.next(q).value) == Run(Some(s)) || AskedSomewhere(p, log, q, s)
  {
    hide Explored, WellBehaved, Asked, AskedSomewhere;
    var m := TakenBy(log, q + [Run(Some(s))]);
    var i, c := |q|, Choices(log[m]);
    assert c[i] == (q + [Run(Some(s))])[i] && c[..i] == q;
    DisabledNeverRun(p, log, m, i, s);
    BranchShape(p, log, m, i);
    assert log[m][i].ts[s] == Active;
    OnlyAsked(p, log, m, i, s, depth, breadth);
  }

  /** A thread that is disabled at a branch point is never scheduled there. */
  lemma DisabledNeverRun(p: Program, log: seq<seq<Node>>, k: nat, i: nat, t: nat)
    requires Explored(p, log) && k < |log| && i < |log[k]| && ChoiceOf(log[k][i]) == Run(Some(t))
    ensures var n := p.next(Choices(log[k])[..i]);
            n.Some? && n.value.Threads? && t < |n.value.ts| && n.value.ts[t] != Disabled
  {
    assert Executed(p, Start(log, k), log[k]);
    assert Shape(p.next(Choices(log[k])[..i]).value, log[k][i]);
  }

  /** The choices `q` are a complete execution under the default schedule, with any legal reads. */
  ghost predicate DefaultExecution(p: Program, q: seq<Choice>) {
    && p.next(q) == None
    && forall j :: 0 <= j < |q| ==> p.next(q[..j]).Some? && Offered(p.next(q[..j]).value, q[j])
  }

  lemma NothingTaken(log: seq<seq<Node>>)
    requires log != []
    ensures Taken(log, [])
  {
    assert [] <= Choices(log[0]);
  }

  lemma TakenBy(log: seq<seq<Node>>, q: seq<Choice>) returns (k: nat)
    requires Taken(log, q)
    ensures k < |log| && q <= Choices(log[k])
  {
    k :| 0 <= k < |log| && q <= Choices(log[k]);
  }

  lemma DefaultNext(p: Program, q: seq<Choice>, j: nat)
    requires DefaultExecution(p, q) && j < |q|
    ensures p.next(q[..j]).Some? && Offered(p.next(q[..j]).value, q[j]) && q[..j] + [q[j]] == q[..j + 1]
  {
  }

  lemma {:induction false} PrefixTaken(p: Program, log: seq<seq<Node>>, q: seq<Choice>, j: nat, depth: nat,
          breadth: nat)
    requires Finished(p, log, depth, breadth) && DefaultExecution(p, q) && j <= |q|
    ensures Taken(log, q[..j])
    decreases j
  {
    hide Taken, Explored, WellBehaved, DefaultExecution, Choices, Offered, Successor;
    if j == 0 {
      NothingTaken(log);
      assert q[..0] == [];
    } else {
      PrefixTaken(p, log, q, j - 1, depth, breadth);
      var k := TakenBy(log, q[..j - 1]);
      DefaultNext(p, q, j - 1);
      PrefixGoesOn(p, log, k, q[..j - 1]);
      SeedsTaken(p, log, k, j - 1, q[j - 1], depth, breadth);
    }
  }

  /** An execution that begins with the choices `q` goes on exactly if the program does. */
  lemma PrefixGoesOn(p: Program, log: seq<seq<Node>>, k: nat, q: seq<Choice>)
    requires Explored(p, log) && k < |log| && q <= Choices(log[k])
    ensures q == Choices(log[k])[..|q|] && |q| <= |log[k]|
    ensures p.next(q).Some? <==> |q| < |log[k]|
  {
    var u := log[k];
    assert Executed(p, Start(log, k), u);
    assert q == Choices(u)[..|q|];
    if |u| == |q| { assert Choices(u)[..|q|] == Choices(u); }
  }

  /** Every such execution has been run, exactly as it is. */
  lemma DefaultExecutionsRun(p: Program, log: seq<seq<Node>>, q: seq<Choice>, depth: nat, breadth: nat)
    requires Finished(p, log, depth, breadth) && DefaultExecution(p, q)
    ensures exists k :: 0 <= k < |log| && Choices(log[k]) == q
  {
    hide Explored, WellBehaved, Choices, Taken, Successor;
    PrefixTaken(p, log, q, |q|, depth, breadth);
    assert q[..|q|] == q;
    var k := TakenBy(log, q);
    PrefixGoesOn(p, log, k, q);
    assert Choices(log[k])[..|log[k]|] == Choices(log[k]);
  }

  /** No two executions are the same, and there are at most `(breadth + 1) ^ depth`. */
  lemma ExecutionsDiffer(p: Program, log: seq<seq<Node>>, k: nat, m: nat, depth: nat, breadth: nat)
    requires Finished(p, log, depth, breadth) && k < m < |log|
    ensures Diverge(Choices(log[k]), Choices(log[m]))
    ensures |log| <= Pow(breadth + 1, depth)
  {
    ExploredExploration(p, log, depth, breadth);
    ExplorationNeverRepeats(log, k, m);
  }

  lemma SeenFits(p: Program, v: seq<Node>, u: seq<Node>, j: nat, x: nat)
    requires Executed(p, v, u) && j <= |u| && x < |p.marks(Choices(u)[..j])|
    requires MarkOk(p, Choices(u)[..j], p.marks(Choices(u)[..j])[x])
    ensures MarkFits(p, Choices(u)[..j], p.marks(Choices(u)[..j])[x])
  {
    hide Executed, MarkSeen, Shape;
    var q, m := Choices(u)[..j], p.marks(Choices(u)[..j])[x];
    MarkHonoured(p, v, u, j, x);
    assert q[..m.0] == Choices(u)[..m.0];
    SeenIndex(p.next(q[..m.0]).value, u, m);
  }

  lemma SeenIndex(s: Node, u: seq<Node>, m: (nat, nat))
    requires MarkSeen(u, m) && Shape(s, u[m.0])
    ensures s.Threads? && m.1 < |s.ts|
  {
  }

  /** The executions in the log asked for no backtrack that does not fit: only the one that ends the loop early did. */
  lemma CompletedFit(p: Program, log: seq<seq<Node>>, k: nat, j: nat, depth: nat, breadth: nat)
    requires WellBehaved(p, depth, breadth) && Explored(p, log) && k < |log| && j <= |log[k]|
    ensures AllFit(p, Choices(log[k])[..j])
  {
    hide Explored, WellBehaved, Executed, MarkOk, MarkFits;
    ExecutedAt(p, log, k);
    var q := Choices(log[k])[..j];
    forall x | 0 <= x < |p.marks(q)| ensures MarkFits(p, q, p.marks(q)[x]) {
      MarkAsked(p, q, x, depth, breadth);
      SeenFits(p, Start(log, k), log[k], j, x);
    }
  }
}
