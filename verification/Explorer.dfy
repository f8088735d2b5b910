/**
 * The checking loop: run the program under test along the path, record what it branched on,
 * and step to the next path until none is left.
 */
module Explorer {
  import opened Wrappers
  import opened PathModel
  import opened PathTheorems
  import opened ExplorationPath
  import opened PathMarks

  /**
   * A deterministic program under test.  After the choices `q` it either reaches the branch
   * point `next(q)` or ends; before that the scheduler asks for the backtracks `marks(q)`,
   * each naming an earlier branch point and a thread.
   */
  datatype Program = Program(next: seq<Choice> -> Option<Node>, marks: seq<Choice> -> seq<(nat, nat)>)

  /** A branch point as the scheduler seeds it: nothing explored and nothing asked for yet. */
  ghost predicate Seeded(n: Node, breadth: nat) {
    && GoodNode(n) && NoDuplicates(n)
    && match n
       case Threads(ts) => |ts| <= breadth && Pending !in ts && Visited !in ts
       case Writes(ws) => |ws| <= breadth + 1
  }

  /** A backtrack names an earlier branch point, and one at which threads were scheduled. */
  ghost predicate MarkOk(p: Program, q: seq<Choice>, m: (nat, nat)) {
    m.0 < |q| && p.next(q[..m.0]).Some? && p.next(q[..m.0]).value.Threads?
  }

  /** The thread that it names existed there; the vector of its states is indexed without looking. */
  ghost predicate MarkFits(p: Program, q: seq<Choice>, m: (nat, nat)) {
    MarkOk(p, q, m) && m.1 < |p.next(q[..m.0]).value.ts|
  }

  ghost predicate AllFit(p: Program, q: seq<Choice>) {
    forall k :: 0 <= k < |p.marks(q)| ==> MarkFits(p, q, p.marks(q)[k])
  }

  ghost predicate WellBehaved(p: Program, depth: nat, breadth: nat) {
    && (forall q :: p.next(q).Some? ==> |q| < depth && Seeded(p.next(q).value, breadth))
    && (forall q, k :: 0 <= k < |p.marks(q)| ==> MarkOk(p, q, p.marks(q)[k]))
  }

  /** Every branch point of `v` is where the program branches after the choices before it. */
  ghost predicate Follows(p: Program, v: seq<Node>) {
    forall i :: 0 <= i < |v| ==> p.next(Choices(v)[..i]).Some? && Shape(p.next(Choices(v)[..i]).value, v[i])
  }

  /** The branch points that an execution added to the path `v` are as seeded, but for the marks. */
  ghost predicate Fresh(p: Program, v: seq<Node>, u: seq<Node>) {
    forall i :: |v| <= i < |u| ==> p.next(Choices(u)[..i]).Some? && Marked(p.next(Choices(u)[..i]).value, u[i])
  }

  /** No backtrack asked for within the first `n` choices has been forgotten. */
  ghost predicate Honoured(p: Program, u: seq<Node>, n: nat)
    requires n <= |u|
  {
    forall j, k :: 0 <= j < n && 0 <= k < |p.marks(Choices(u)[..j])| ==> MarkSeen(u, p.marks(Choices(u)[..j])[k])
  }

  /** Nor have those asked for after the last choice. */
  ghost predicate LastHonoured(p: Program, u: seq<Node>) {
    forall k :: 0 <= k < |p.marks(Choices(u))| ==> MarkSeen(u, p.marks(Choices(u))[k])
  }

  predicate MarkSeen(u: seq<Node>, m: (nat, nat)) {
    m.0 < |u| && u[m.0].Threads? && m.1 < |u[m.0].ts| && u[m.0].ts[m.1] != Skip
  }

  /** An execution that started from path `v` has made `pos` choices and the path is now `u`. */
  ghost predicate Running(p: Program, v: seq<Node>, u: seq<Node>, pos: nat) {
    && pos <= |u| && |u| == (if pos < |v| then |v| else pos)
    && Extends(v, u) && Follows(p, u) && Fresh(p, v, u)
  }

  // ----- exactly what the backtracks of an execution change -----

  /** The backtracks asked for before the first `n` choices of `q` are made, in order. */
  function MarksUpTo(p: Program, q: seq<Choice>, n: nat): seq<(nat, nat)>
    requires n <= |q| + 1
  {
    if n == 0 then [] else MarksUpTo(p, q, n - 1) + p.marks(q[..n - 1])
  }

  /** Branch point `i` at the start of the execution, or as it was seeded. */
  function Base(p: Program, v: seq<Node>, q: seq<Choice>, i: nat): Option<Node>
    requires i <= |q|
  {
    if i < |v| then Some(v[i]) else p.next(q[..i])
  }

  /** Each branch point is what backtracks `ms` have left of it. */
  ghost predicate JustMarked(p: Program, v: seq<Node>, u: seq<Node>, ms: seq<(nat, nat)>) {
    forall i :: 0 <= i < |u| ==>
      && Base(p, v, Choices(u), i).Some?
      && u[i] == AfterMarks(Base(p, v, Choices(u), i).value, Named(ms, i))
  }

  lemma OneMoreMark(p: Program, v: seq<Node>, u: seq<Node>, w: seq<Node>, ms: seq<(nat, nat)>, m: (nat, nat))
    requires JustMarked(p, v, u, ms) && Choices(w) == Choices(u)
    requires m.0 < |u| && u[m.0].Threads? && m.1 < |u[m.0].ts| && w == u[m.0 := Threads(Backtracked(u[m.0].ts, m.1))]
    ensures JustMarked(p, v, w, ms + [m])
  {
    hide Choices, Backtracked, AfterMarks, Named;
    forall i | 0 <= i < |w|
      ensures Base(p, v, Choices(w), i).Some?
      ensures w[i] == AfterMarks(Base(p, v, Choices(w), i).value, Named(ms + [m], i))
    {
      NamedNext(ms, m, i);
      if i == m.0 { AfterNext(Base(p, v, Choices(u), i).value, Named(ms, i), m.1); }
    }
  }

  lemma NothingMarked(p: Program, v: seq<Node>)
    ensures JustMarked(p, v, v, [])
  {
  }

  /** The branch point just seeded has no backtrack yet. */
  lemma SeedUnmarked(p: Program, v: seq<Node>, u: seq<Node>, ms: seq<(nat, nat)>, n: Node)
    requires JustMarked(p, v, u, ms) && p.next(Choices(u)) == Some(n) && |v| <= |u|
    requires forall m :: m in ms ==> m.0 < |u|
    ensures JustMarked(p, v, u + [n], ms)
  {
    var w := u + [n];
    hide AfterMarks, Named, ChoiceOf;
    assert Choices(w)[..|u|] == Choices(u);
    forall i | 0 <= i < |w|
      ensures Base(p, v, Choices(w), i).Some?
      ensures w[i] == AfterMarks(Base(p, v, Choices(w), i).value, Named(ms, i))
    {
      if i < |u| {
        assert Choices(w)[..i] == Choices(u)[..i] && w[i] == u[i];
        assert Base(p, v, Choices(w), i) == Base(p, v, Choices(u), i);
      } else {
        assert Base(p, v, Choices(w), i) == Some(n) && w[i] == n;
        NotNamed(n, ms, i);
      }
    }
  }

  lemma NotNamed(n: Node, ms: seq<(nat, nat)>, i: nat)
    requires forall m :: m in ms ==> m.0 < i
    ensures AfterMarks(n, Named(ms, i)) == n
  {
    NamedOnly(ms, i);
    if Named(ms, i) != [] { assert Named(ms, i)[0] in Named(ms, i); }
  }

  lemma ChoicesPrefix(v: seq<Node>, u: seq<Node>, n: nat)
    requires n <= |v| && n <= |u| && forall i :: 0 <= i < n ==> ChoiceOf(v[i]) == ChoiceOf(u[i])
    ensures Choices(v)[..n] == Choices(u)[..n]
  {
  }

  /** A backtrack keeps the choices and everything known about the execution. */
  lemma MarkRuns(p: Program, v: seq<Node>, u: seq<Node>, pos: nat, i: nat, t: nat)
    requires Running(p, v, u, pos) && i < |u| && u[i].Threads? && t < |u[i].ts|
    ensures var w := u[i := Threads(Backtracked(u[i].ts, t))];
            Running(p, v, w, pos) && Choices(w) == Choices(u) && MarkSeen(w, (i, t))
            && forall m :: MarkSeen(u, m) ==> MarkSeen(w, m)
  {
    hide Backtracked, GoodNode, ChoiceOf, First;
    var m := Threads(Backtracked(u[i].ts, t));
    var w := u[i := m];
    BacktrackMarks(u[i].ts, t);
    MarkedKeeps(u[i], m);
    assert Choices(w) == Choices(u);
    hide Choices;
    assert Follows(p, w);
    assert Fresh(p, v, w);
    assert Extends(v, w);
  }

  lemma AppendRuns(p: Program, v: seq<Node>, u: seq<Node>, n: Node)
    requires Running(p, v, u, |u|) && p.next(Choices(u)) == Some(n) && GoodNode(n)
    ensures Running(p, v, u + [n], |u| + 1)
  {
    var w := u + [n];
    ChoicesPrefix(u, w, |u|);
    assert Choices(u)[..|u|] == Choices(u);
    forall i | 0 <= i < |u| ensures Choices(w)[..i] == Choices(u)[..i] { ChoicesPrefix(u, w, i); }
    assert Marked(n, n) && Shape(n, n);
  }

  /** A running execution has made the choices `q`, and no backtrack asked for before the last of them is forgotten. */
  ghost predicate Reached(p: Program, v: seq<Node>, u: seq<Node>, q: seq<Choice>) {
    |q| <= |u| && Running(p, v, u, |q|) && q == Choices(u)[..|q|] && Honoured(p, u, |q|)
  }

  lemma MarkReached(p: Program, v: seq<Node>, u: seq<Node>, q: seq<Choice>, m: (nat, nat))
    requires Reached(p, v, u, q) && MarkFits(p, q, m)
    ensures m.0 < |u| && u[m.0].Threads? && m.1 < |u[m.0].ts|
    ensures var w := u[m.0 := Threads(Backtracked(u[m.0].ts, m.1))];
            && Reached(p, v, w, q) && MarkSeen(w, m) && Choices(w) == Choices(u)
            && forall m' :: MarkSeen(u, m') ==> MarkSeen(w, m')
  {
    assert q[..m.0] == Choices(u)[..m.0];
    MarkRuns(p, v, u, |q|, m.0, m.1);
  }

  /** The vector that a backtrack indexes has the threads of that branch point. */
  lemma MarkIndex(p: Program, v: seq<Node>, u: seq<Node>, q: seq<Choice>, m: (nat, nat))
    requires Reached(p, v, u, q) && MarkOk(p, q, m)
    ensures m.0 < |u| && u[m.0].Threads? && (m.1 < |u[m.0].ts| <==> MarkFits(p, q, m))
  {
    assert q[..m.0] == Choices(u)[..m.0];
    assert Shape(p.next(Choices(u)[..m.0]).value, u[m.0]);
  }

  /** One backtrack of a running execution; it panics exactly if the thread did not exist there. */
  method MakeMark(p: Program, path: Path, q: seq<Choice>, m: (nat, nat), ghost v: seq<Node>, ghost ms: seq<(nat, nat)>)
    returns (ok: bool)
    requires path.Valid() && path.pos == |q| && Reached(p, v, path.View(), q) && MarkOk(p, q, m)
    requires JustMarked(p, v, path.View(), ms)
    modifies path
    ensures path.Valid() && path.pos == |q| && Reached(p, v, path.View(), q)
    ensures ok <==> MarkFits(p, q, m)
    ensures ok ==> MarkSeen(path.View(), m) && forall m' :: MarkSeen(old(path.View()), m') ==> MarkSeen(path.View(), m')
    ensures ok ==> JustMarked(p, v, path.View(), ms + [m])
  {
    hide Reached, MarkOk, MarkFits, MarkSeen, Backtracked, JustMarked, Choices;
    ghost var u := path.View();
    MarkIndex(p, v, u, q, m);
    if MarkFits(p, q, m) { MarkReached(p, v, u, q, m); }
    ok := path.Backtrack(m.0, m.1);
    if ok { OneMoreMark(p, v, u, path.View(), ms, m); }
  }

  /** The backtracks the scheduler asks for at one point of an execution, up to the first that panics. */
  method MakeMarks(p: Program, path: Path, q: seq<Choice>, marks: seq<(nat, nat)>, ghost v: seq<Node>,
      ghost ms: seq<(nat, nat)>)
    returns (ok: bool)
    requires forall k :: 0 <= k < |marks| ==> MarkOk(p, q, marks[k])
    requires path.Valid() && path.pos == |q| && Reached(p, v, path.View(), q)
    requires JustMarked(p, v, path.View(), ms)
    modifies path
    ensures path.Valid() && path.pos == |q| && Reached(p, v, path.View(), q)
    ensures ok ==> JustMarked(p, v, path.View(), ms + marks)
    ensures ok <==> forall k :: 0 <= k < |marks| ==> MarkFits(p, q, marks[k])
    ensures ok ==> forall k :: 0 <= k < |marks| ==> MarkSeen(path.View(), marks[k])
  {
    hide *;
    assert ms + marks[..0] == ms;
    for k := 0 to |marks|
      invariant path.Valid() && path.pos == |q| && Reached(p, v, path.View(), q)
      invariant JustMarked(p, v, path.View(), ms + marks[..k])
      invariant forall j :: 0 <= j < k ==> MarkSeen(path.View(), marks[j])
      invariant forall j :: 0 <= j < k ==> MarkFits(p, q, marks[j])
    {
      ok := MakeMark(p, path, q, marks[k], v, ms + marks[..k]);
      if !ok { return; }
      assert ms + marks[..k + 1] == ms + marks[..k] + [marks[k]];
    }
    assert marks[..|marks|] == marks;
    ok := true;
  }

  /** The path once the branch point after the choices `q` is on it. */
  function WithBranch(p: Program, u: seq<Node>, q: seq<Choice>): seq<Node>
    requires p.next(q).Some?
  {
    if |q| < |u| then u else u + [p.next(q).value]
  }

  lemma BranchReached(p: Program, v: seq<Node>, u: seq<Node>, q: seq<Choice>, breadth: nat)
    requires Reached(p, v, u, q) && p.next(q).Some? && Seeded(p.next(q).value, breadth)
    requires forall k :: 0 <= k < |p.marks(q)| ==> MarkSeen(u, p.marks(q)[k])
    ensures var w := WithBranch(p, u, q);
            |q| < |w| && Reached(p, v, w, q + [ChoiceOf(w[|q|])]) && w[|q|].Threads? == p.next(q).value.Threads?
  {
    var w := WithBranch(p, u, q);
    if |q| < |u| {
      assert Shape(p.next(q).value, u[|q|]);
    } else {
      assert Choices(u)[..|u|] == Choices(u);
      AppendRuns(p, v, u, p.next(q).value);
    }
    forall j | 0 <= j <= |q| ensures Choices(w)[..j] == Choices(u)[..j] { ChoicesPrefix(u, w, j); }
    assert Choices(w)[..|q| + 1] == q + [ChoiceOf(w[|q|])];
    HonouredNext(p, u, w, |q|);
  }

  lemma HonouredNext(p: Program, u: seq<Node>, w: seq<Node>, n: nat)
    requires n < |w| && n <= |u| <= |w| && Honoured(p, u, n)
    requires forall i :: 0 <= i < |u| ==> w[i] == u[i]
    requires forall k :: 0 <= k < |p.marks(Choices(u)[..n])| ==> MarkSeen(u, p.marks(Choices(u)[..n])[k])
    ensures Honoured(p, w, n + 1)
  {
    forall j | 0 <= j <= n ensures Choices(w)[..j] == Choices(u)[..j] { ChoicesPrefix(u, w, j); }
    forall m: (nat, nat) | MarkSeen(u, m) ensures MarkSeen(w, m) { assert w[m.0] == u[m.0]; }
  }

  lemma EndReached(p: Program, v: seq<Node>, u: seq<Node>, q: seq<Choice>)
    requires Reached(p, v, u, q) && p.next(q) == None
    ensures |q| == |u| && q == Choices(u)
    ensures Extends(v, u) && Follows(p, u) && Fresh(p, v, u) && Honoured(p, u, |u|)
  {
    assert q == Choices(u)[..|q|];
    assert Choices(u)[..|u|] == Choices(u);
  }

  lemma NothingReached(p: Program, v: seq<Node>)
    requires Follows(p, v) && forall i :: 0 <= i < |v| ==> GoodNode(v[i])
    ensures Reached(p, v, v, [])
  {
    assert forall i :: 0 <= i < |v| ==> Marked(v[i], v[i]);
  }

  lemma SeedOk(p: Program, q: seq<Choice>, depth: nat, breadth: nat)
    requires WellBehaved(p, depth, breadth) && p.next(q).Some?
    ensures |q| < depth && Seeded(p.next(q).value, breadth) && p.next(q).value != Writes([])
  {
  }

  lemma MarksOk(p: Program, q: seq<Choice>, depth: nat, breadth: nat)
    requires WellBehaved(p, depth, breadth)
    ensures forall k :: 0 <= k < |p.marks(q)| ==> MarkOk(p, q, p.marks(q)[k])
  {
  }

  lemma ReachedRunning(p: Program, v: seq<Node>, u: seq<Node>, q: seq<Choice>)
    requires Reached(p, v, u, q)
    ensures |q| <= |u| && Running(p, v, u, |q|) && q == Choices(u)[..|q|]
  {
  }

  lemma FitsSoFar(p: Program, q: seq<Choice>, c: Choice)
    requires forall j :: 0 <= j <= |q| ==> AllFit(p, q[..j])
    ensures forall j :: 0 <= j < |q + [c]| ==> AllFit(p, (q + [c])[..j])
  {
    forall j | 0 <= j < |q + [c]| ensures AllFit(p, (q + [c])[..j]) { assert (q + [c])[..j] == q[..j]; }
  }

  lemma FitsHere(p: Program, q: seq<Choice>)
    requires AllFit(p, q) && forall j :: 0 <= j < |q| ==> AllFit(p, q[..j])
    ensures forall j :: 0 <= j <= |q| ==> AllFit(p, q[..j])
  {
    assert q[..|q|] == q;
  }

  lemma NoMarksBefore(p: Program)
    ensures MarksUpTo(p, [], 0) == []
  {
  }

  lemma MarksHere(p: Program, q: seq<Choice>)
    ensures MarksUpTo(p, q, |q| + 1) == MarksUpTo(p, q, |q|) + p.marks(q)
  {
    assert q[..|q|] == q;
  }

  lemma {:induction false} MarksSoFar(p: Program, q: seq<Choice>, c: Choice, n: nat)
    requires n <= |q| + 1
    ensures MarksUpTo(p, q + [c], n) == MarksUpTo(p, q, n)
  {
    if n > 0 {
      assert (q + [c])[..n - 1] == q[..n - 1];
      MarksSoFar(p, q, c, n - 1);
    }
  }

  lemma {:induction false} MarksPast(p: Program, q: seq<Choice>, n: nat, depth: nat, breadth: nat)
    requires WellBehaved(p, depth, breadth) && n <= |q| + 1
    ensures forall m :: m in MarksUpTo(p, q, n) ==> m.0 < |q|
  {
    if n > 0 {
      MarksPast(p, q, n - 1, depth, breadth);
      var ms := p.marks(q[..n - 1]);
      forall m | m in ms ensures m.0 < |q| {
        var k :| 0 <= k < |ms| && ms[k] == m;
        assert MarkOk(p, q[..n - 1], ms[k]);
      }
    }
  }

  lemma BranchMarked(p: Program, v: seq<Node>, u: seq<Node>, q: seq<Choice>, depth: nat, breadth: nat)
    requires WellBehaved(p, depth, breadth) && Reached(p, v, u, q) && p.next(q).Some?
    requires JustMarked(p, v, u, MarksUpTo(p, q, |q| + 1))
    ensures JustMarked(p, v, WithBranch(p, u, q), MarksUpTo(p, q, |q| + 1))
  {
    hide JustMarked, MarksUpTo, WellBehaved, ChoiceOf, Follows, Fresh;
    if |q| == |u| {
      assert Choices(u) == Choices(u)[..|u|];
      MarksPast(p, q, |q| + 1, depth, breadth);
      SeedUnmarked(p, v, u, MarksUpTo(p, q, |q| + 1), p.next(q).value);
    }
  }

  /** The execution has panicked after the choices `q`: at the first point at which some backtrack does not fit. */
  ghost predicate Panicked(p: Program, v: seq<Node>, u: seq<Node>, q: seq<Choice>) {
    && |q| <= |u| && Running(p, v, u, |q|) && q == Choices(u)[..|q|]
    && !AllFit(p, q) && forall j :: 0 <= j < |q| ==> AllFit(p, q[..j])
  }

  /** One execution of the program under test along the path; it ends, or panics at a backtrack that does not fit. */
  method RunOnce(p: Program, path: Path, ghost depth: nat, ghost breadth: nat) returns (choices: seq<Choice>, ok: bool)
    requires path.Valid() && path.pos == 0
    requires WellBehaved(p, depth, breadth) && Follows(p, path.View())
    requires forall i :: 0 <= i < |path.View()| ==> GoodNode(path.View()[i])
    modifies path
    ensures path.Valid()
    ensures !ok ==> Panicked(p, old(path.View()), path.View(), choices)
    ensures ok ==> path.pos == |path.View()| && forall j :: 0 <= j <= |choices| ==> AllFit(p, choices[..j])
    ensures ok ==> Extends(old(path.View()), path.View()) && Follows(p, path.View())
    ensures ok ==> Fresh(p, old(path.View()), path.View())
    ensures ok ==> choices == Choices(path.View()) && p.next(choices) == None
    ensures ok ==> Honoured(p, path.View(), |path.View()|) && LastHonoured(p, path.View())
    ensures ok ==> JustMarked(p, old(path.View()), path.View(), MarksUpTo(p, choices, |choices| + 1))
  {
    hide JustMarked, MarksUpTo;
    hide Follows, Marked, GoodNode, ChoiceOf, Seeded, MarkSeen, MarkOk, MarkFits, WellBehaved, Reached, Running;
    choices := [];
    ghost var v := path.View();
    NothingReached(p, v);
    NothingMarked(p, v);
    NoMarksBefore(p);
    while true
      invariant path.Valid() && path.pos == |choices| && Reached(p, v, path.View(), choices)
      invariant forall j :: 0 <= j < |choices| ==> AllFit(p, choices[..j])
      invariant JustMarked(p, v, path.View(), MarksUpTo(p, choices, |choices|))
      decreases depth - |choices|
    {
      MarksOk(p, choices, depth, breadth);
      ok := MakeMarks(p, path, choices, p.marks(choices), v, MarksUpTo(p, choices, |choices|));
      if !ok {
        ReachedRunning(p, v, path.View(), choices);
        return;
      }
      FitsHere(p, choices);
      MarksHere(p, choices);
      var seed := p.next(choices);
      if seed == None {
        EndReached(p, v, path.View(), choices);
        return;
      }
      SeedOk(p, choices, depth, breadth);
      BranchReached(p, v, path.View(), choices, breadth);
      BranchMarked(p, v, path.View(), choices, depth, breadth);
      match seed.value
      case Writes(ws) =>
        var r := path.BranchWrite(ws);
        FitsSoFar(p, choices, Read(r.value));
        MarksSoFar(p, choices, Read(r.value), |choices| + 1);
        choices := choices + [Read(r.value)];
      case Threads(ts) =>
        var th := path.BranchThread(ts);
        FitsSoFar(p, choices, Run(th.value));
        MarksSoFar(p, choices, Run(th.value), |choices| + 1);
        choices := choices + [Run(th.value)];
    }
  }

  // ----- all executions -----

  /** One complete execution took the path from `v` to `u`. */
  ghost predicate Executed(p: Program, v: seq<Node>, u: seq<Node>) {
    && Extends(v, u) && Follows(p, u) && Fresh(p, v, u) && p.next(Choices(u)) == None
    && Honoured(p, u, |u|) && LastHonoured(p, u) && JustMarked(p, v, u, MarksUpTo(p, Choices(u), |u| + 1))
  }

  lemma RunExecuted(p: Program, v: seq<Node>, u: seq<Node>)
    requires Extends(v, u) && Follows(p, u) && Fresh(p, v, u) && p.next(Choices(u)) == None
    requires Honoured(p, u, |u|) && LastHonoured(p, u) && JustMarked(p, v, u, MarksUpTo(p, Choices(u), |u| + 1))
    ensures Executed(p, v, u)
  {
  }

  /** The path before execution `k`. */
  function Start(log: seq<seq<Node>>, k: nat): seq<Node>
    requires k <= |log|
  {
    if k == 0 then [] else match Successor(log[k - 1]) case Some(v) => v case None => []
  }

  /** `log` holds the paths after the executions of `p` made so far. */
  ghost predicate Explored(p: Program, log: seq<seq<Node>>) {
    && (forall k {:trigger Start(log, k)} :: 0 <= k < |log| ==> Executed(p, Start(log, k), log[k]))
    && (forall k :: 0 <= k < |log| - 1 ==> Successor(log[k]).Some?)
  }

  lemma AdvanceShape(s: Node, n: Node)
    requires Shape(s, n) && Advance(n).Some?
    ensures Shape(s, Advance(n).value)
  {
    if n.Threads? {
      var i := First(n.ts, Active);
      var ts1 := if i < |n.ts| then n.ts[i := Visited] else n.ts;
      assert n.ts[First(ts1, Pending)] == Pending;
    }
  }

  lemma SuccessorFollows(p: Program, u: seq<Node>)
    requires Follows(p, u) && Successor(u).Some? && forall i :: 0 <= i < |u| ==> GoodNode(u[i])
    ensures var v := Successor(u).value; Follows(p, v) && forall i :: 0 <= i < |v| ==> GoodNode(v[i])
  {
    hide Advance, GoodNode, Shape, ChoiceOf, Choices;
    SuccessorShape(u);
    var v := Successor(u).value;
    var j := |v| - 1;
    assert forall i :: 0 <= i < j ==> v[i] == v[..j][i] == u[..j][i] == u[i];
    forall i | 0 <= i < |v|
      ensures p.next(Choices(v)[..i]).Some? && Shape(p.next(Choices(v)[..i]).value, v[i]) && GoodNode(v[i])
    {
      ChoicesPrefix(u, v, i);
      if i == j { AdvanceShape(p.next(Choices(u)[..i]).value, u[i]); AdvanceKeeps(u[i]); }
    }
  }

  lemma FollowsSmall(p: Program, u: seq<Node>, depth: nat, breadth: nat)
    requires WellBehaved(p, depth, breadth) && Follows(p, u)
    ensures Small(u, depth, breadth) && forall i :: 0 <= i < |u| ==> NoDuplicates(u[i])
  {
    forall i | 0 <= i < |u| ensures i < depth && Digit(u[i]) <= breadth && NoDuplicates(u[i]) {
      var q := Choices(u)[..i];
      assert Seeded(p.next(q).value, breadth) && Shape(p.next(q).value, u[i]);
    }
    if u != [] {
      var q := Choices(u)[..|u| - 1];
      assert Shape(p.next(q).value, u[|u| - 1]) && |q| < depth;
    }
  }

  /** A log of executions is an exploration in the sense of `PathTheorems`. */
  lemma ExploredExploration(p: Program, log: seq<seq<Node>>, depth: nat, breadth: nat)
    requires WellBehaved(p, depth, breadth) && Explored(p, log) && log != []
    ensures Exploration(log) && Distinct(log)
    ensures forall k :: 0 <= k < |log| ==> Small(log[k], depth, breadth)
    ensures |log| <= Pow(breadth + 1, depth)
  {
    assert Executed(p, Start(log, 0), log[0]);
    forall k | 0 <= k < |log| - 1 ensures GoesOn(log, k) {
      assert Executed(p, Start(log, k + 1), log[k + 1]);
    }
    forall k | 0 <= k < |log|
      ensures Small(log[k], depth, breadth) && forall i :: 0 <= i < |log[k]| ==> NoDuplicates(log[k][i])
    {
      assert Executed(p, Start(log, k), log[k]);
      FollowsSmall(p, log[k], depth, breadth);
    }
    ExplorationBounded(log, depth, breadth);
  }

  lemma StartPrefix(log: seq<seq<Node>>, u: seq<Node>, k: nat)
    requires k <= |log|
    ensures Start(log + [u], k) == Start(log, k)
  {
    if k > 0 { assert (log + [u])[k - 1] == log[k - 1]; }
  }

  lemma ExploredMore(p: Program, log: seq<seq<Node>>, u: seq<Node>)
    requires Explored(p, log) && (log != [] ==> Successor(log[|log| - 1]).Some?)
    requires Executed(p, Start(log, |log|), u)
    ensures Explored(p, log + [u])
  {
    hide Executed, Successor;
    var log' := log + [u];
    forall k | 0 <= k < |log'| ensures Executed(p, Start(log', k), log'[k]) {
      StartPrefix(log, u, k);
      if k < |log| { assert Executed(p, Start(log, k), log[k]); }
    }
    forall k | 0 <= k < |log'| - 1 ensures Successor(log'[k]).Some? {
      assert log'[k] == log[k];
    }
  }

  /** Where `step` leaves the path after an execution, and why the loop ends. */
  lemma AfterRun(p: Program, v: seq<Node>, u: seq<Node>, depth: nat, breadth: nat)
    requires WellBehaved(p, depth, breadth) && Executed(p, v, u)
    ensures |v| <= |u| <= depth
    ensures Successor(u).Some? ==>
              var w := Successor(u).value;
              && Follows(p, w) && (forall i :: 0 <= i < |w| ==> GoodNode(w[i])) && |w| <= depth
              && Measure(w, depth, breadth) < Measure(v, depth, breadth)
  {
    FollowsSmall(p, u, depth, breadth);
    RunNeverRaises(v, u, depth, breadth);
    if Successor(u).Some? {
      SuccessorFollows(p, u);
      StepLowers(u, depth, breadth);
    }
  }

  lemma NothingExplored(p: Program)
    ensures Explored(p, []) && Start([], 0) == [] && Follows(p, [])
  {
  }

  lemma StartNext(log: seq<seq<Node>>, u: seq<Node>)
    ensures Start(log + [u], |log| + 1) == if Successor(u).Some? then Successor(u).value else []
  {
  }

  /** The path that execution `|log|` starts from is fit to start from. */
  lemma FitToStart(p: Program, log: seq<seq<Node>>, depth: nat, breadth: nat)
    requires WellBehaved(p, depth, breadth) && Explored(p, log) && (log != [] ==> Successor(log[|log| - 1]).Some?)
    ensures var v := Start(log, |log|);
            Follows(p, v) && |v| <= depth && forall i :: 0 <= i < |v| ==> GoodNode(v[i])
  {
    hide WellBehaved, Successor, Executed, GoodNode;
    if log == [] {
      NothingExplored(p);
    } else {
      var k := |log| - 1;
      assert Executed(p, Start(log, k), log[k]);
      AfterRun(p, Start(log, k), log[k], depth, breadth);
    }
  }

  /**
   * `Builder::fuzz`: every path is executed, one after the other; the loop ends.  It ends early
   * exactly if an execution panics.  It starts from nothing, or from the path that a checkpoint
   * has kept of an exploration of which `before` was done; together they are one exploration.
   */
  method Fuzz(p: Program, path: Path, ghost before: seq<seq<Node>>, ghost depth: nat, ghost breadth: nat)
    returns (log: seq<seq<Node>>, ok: bool, last: seq<Choice>)
    requires path.Valid() && path.pos == 0 && WellBehaved(p, depth, breadth)
    requires Explored(p, before) && (before != [] ==> Successor(before[|before| - 1]).Some?)
    requires path.View() == Start(before, |before|)
    modifies path
    ensures path.Valid() && Explored(p, before + log)
    ensures ok ==> log != [] && Successor(log[|log| - 1]) == None
    ensures !ok ==> (log != [] ==> Successor(log[|log| - 1]).Some?)
                    && Panicked(p, Start(before + log, |before + log|), path.View(), last)
  {
    hide Successor, Measure, GoodNode, Explored, Follows, WellBehaved, Start, Executed, Extends;
    hide Fresh, Honoured, LastHonoured, Choices, Panicked, AllFit, JustMarked, MarksUpTo;
    log := [];
    ghost var so := before;
    FitToStart(p, before, depth, breadth);
    while true
      invariant path.Valid() && path.pos == 0 && Explored(p, so) && so == before + log
      invariant so != [] ==> Successor(so[|so| - 1]).Some?
      invariant log != [] ==> Successor(log[|log| - 1]).Some?
      invariant path.View() == Start(so, |so|) && Follows(p, path.View())
      invariant forall i :: 0 <= i < |path.View()| ==> GoodNode(path.View()[i])
      invariant |path.View()| <= depth
      decreases Measure(path.View(), depth, breadth)
    {
      ghost var v := path.View();
      last, ok := RunOnce(p, path, depth, breadth);
      if !ok { return; }
      ghost var u := path.View();
      OneMore(p, so, u, depth, breadth);
      assert before + (log + [u]) == so + [u];
      so, log := so + [u], log + [path.View()];
      var more := path.Step();
      if !more { return; }
    }
  }

  /** After one more execution. */
  lemma OneMore(p: Program, log: seq<seq<Node>>, u: seq<Node>, depth: nat, breadth: nat)
    requires WellBehaved(p, depth, breadth) && Explored(p, log) && (log != [] ==> Successor(log[|log| - 1]).Some?)
    requires var v := Start(log, |log|); Extends(v, u) && Follows(p, u) && Fresh(p, v, u) && p.next(Choices(u)) == None
    requires Honoured(p, u, |u|) && LastHonoured(p, u)
    requires JustMarked(p, Start(log, |log|), u, MarksUpTo(p, Choices(u), |u| + 1))
    ensures Explored(p, log + [u]) && |Start(log, |log|)| <= |u| <= depth
    ensures Successor(u).Some? ==>
              var w := Successor(u).value;
              && Start(log + [u], |log| + 1) == w
              && Follows(p, w) && (forall i :: 0 <= i < |w| ==> GoodNode(w[i])) && |w| <= depth
              && Measure(w, depth, breadth) < Measure(Start(log, |log|), depth, breadth)
  {
    hide *;
    var v := Start(log, |log|);
    RunExecuted(p, v, u);
    StartNext(log, u);
    AfterRun(p, v, u, depth, breadth);
    ExploredMore(p, log, u);
  }
}
