/** Depth-first exploration is complete, never repeats itself and terminates. */
module PathTheorems {
  import opened Wrappers
  import opened PathModel

  /** One execution started from path `v` and left path `u`: old branch points at most marked, new ones as seeded. */
  ghost predicate Extends(v: seq<Node>, u: seq<Node>) {
    && |v| <= |u|
    && (forall i :: 0 <= i < |v| ==> Marked(v[i], u[i]))
    && forall i :: 0 <= i < |u| ==> GoodNode(u[i])
  }

  /** The paths at the end of the successive executions, starting from an empty path. */
  ghost predicate Exploration(log: seq<seq<Node>>) {
    && log != [] && Extends([], log[0])
    && forall k :: 0 <= k < |log| - 1 ==> GoesOn(log, k)
  }

  /** Execution `k + 1` starts where execution `k` leads. */
  ghost predicate GoesOn(log: seq<seq<Node>>, k: int)
    requires 0 <= k < |log| - 1
  {
    Continues(log[k], log[k + 1])
  }

  ghost predicate Continues(v: seq<Node>, u: seq<Node>) {
    Successor(v).Some? && Extends(Successor(v).value, u)
  }

  /** Some execution made the choices `q`, and possibly more after them. */
  ghost predicate Taken(log: seq<seq<Node>>, q: seq<Choice>) {
    exists k :: 0 <= k < |log| && q <= Choices(log[k])
  }

  /** What the next execution finds at position `i` of the path the last one left. */
  lemma NextRun(v: seq<Node>, u: seq<Node>, i: nat)
    requires Continues(v, u) && i < |v| && forall j :: 0 <= j < |v| ==> GoodNode(v[j])
    ensures i < |Successor(v).value| ==> i < |u| && Choices(u)[..i] == Choices(v)[..i]
    ensures i < |Successor(v).value| - 1 ==> Marked(v[i], u[i])
    ensures i == |Successor(v).value| - 1 ==> Advance(v[i]).Some? && Marked(Advance(v[i]).value, u[i])
    ensures i > |Successor(v).value| - 1 ==> Advance(v[i]) == None
  {
    SuccessorShape(v);
    hide Advance, GoodNode, ChoiceOf, Marked, Successor;
    var w := Successor(v).value;
    if i < |w| {
      forall j | 0 <= j < i ensures Choices(u)[j] == Choices(v)[j] {
        assert w[j] == w[..|w| - 1][j] == v[..|w| - 1][j];
        MarkedKeeps(v[j], u[j]);
      }
      if i < |w| - 1 { assert w[i] == w[..|w| - 1][i] == v[..|w| - 1][i]; }
    }
  }

  lemma NothingWaits(n: Node, c: Choice)
    requires Advance(n) == None
    ensures !Waiting(n, c)
  {
    if n.Threads? {
      var i := First(n.ts, Active);
      var ts1 := if i < |n.ts| then n.ts[i := Visited] else n.ts;
      assert Pending !in ts1[..|n.ts|];
      forall t | 0 <= t < |n.ts| ensures n.ts[t] != Pending { assert ts1[..|n.ts|][t] == ts1[t]; }
    }
  }

  /** An alternative waiting after execution `k` is taken by a later one, after the same choices. */
  lemma {:induction false} WaitingTaken(log: seq<seq<Node>>, k: nat, i: nat, c: Choice)
    requires Exploration(log) && k < |log| && Successor(log[|log| - 1]) == None
    requires i < |log[k]| && Waiting(log[k][i], c)
    ensures Taken(log, Choices(log[k])[..i] + [c])
    decreases |log| - k
  {
    var v := log[k];
    assert forall j :: 0 <= j < |v| ==> GoodNode(v[j]) by { if k > 0 { assert GoesOn(log, k - 1); } }
    if k == |log| - 1 {
      SuccessorShape(v);
      NothingWaits(v[i], c);
    } else {
      var u := log[k + 1];
      assert GoesOn(log, k);
      hide Advance, GoodNode, ChoiceOf, Marked, Successor, Waiting, Choices;
      NextRun(v, u, i);
      var j := |Successor(v).value| - 1;
      if i > j {
        NothingWaits(v[i], c);
      } else {
        if i < j {
          MarkedKeeps(v[i], u[i]);
        } else {
          AdvanceKeeps(v[i]);
          MarkedKeeps(Advance(v[i]).value, u[i]);
        }
        if Waiting(u[i], c) {
          WaitingTaken(log, k + 1, i, c);
        } else {
          ChosenTaken(log, k + 1, i);
        }
      }
    }
  }

  /** The choice at a branch point of an execution is taken after the choices before it. */
  lemma ChosenTaken(log: seq<seq<Node>>, k: nat, i: nat)
    requires k < |log| && i < |log[k]|
    ensures Taken(log, Choices(log[k])[..i] + [ChoiceOf(log[k][i])])
  {
    assert Choices(log[k])[..i] + [ChoiceOf(log[k][i])] == Choices(log[k])[..i + 1];
    assert Choices(log[k])[..i] + [ChoiceOf(log[k][i])] <= Choices(log[k]);
  }

  /**
   * When `step` finally returns false, every alternative recorded at a branch point of any
   * execution has been taken by some execution after exactly the choices that lead there.
   */
  lemma ExplorationComplete(log: seq<seq<Node>>, k: nat, i: nat, c: Choice)
    requires Exploration(log) && Successor(log[|log| - 1]) == None
    requires k < |log| && i < |log[k]| && Offered(log[k][i], c)
    ensures Taken(log, Choices(log[k])[..i] + [c])
  {
    if c == ChoiceOf(log[k][i]) {
      ChosenTaken(log, k, i);
    } else {
      WaitingTaken(log, k, i, c);
    }
  }

  // ----- no two executions make the same choices -----

  /** `a` and `b` make the same choices up to some point, and different ones there. */
  ghost predicate Diverge(a: seq<Choice>, b: seq<Choice>) {
    exists i :: 0 <= i < |a| && i < |b| && a[..i] == b[..i] && a[i] != b[i]
  }

  /** Some branch point of `v` lies on the way of the choices `r`, which are used up there. */
  ghost predicate UsedUp(v: seq<Node>, r: seq<Choice>) {
    exists i :: 0 <= i < |v| && i < |r| && Choices(v)[..i] == r[..i] && Spent(v[i], r[i])
  }

  ghost predicate Distinct(log: seq<seq<Node>>) {
    forall k, i :: 0 <= k < |log| && 0 <= i < |log[k]| ==> NoDuplicates(log[k][i])
  }

  lemma UsedUpDiverges(v: seq<Node>, r: seq<Choice>)
    requires UsedUp(v, r) && forall i :: 0 <= i < |v| ==> GoodNode(v[i])
    ensures Diverge(r, Choices(v))
  {
    var i :| 0 <= i < |v| && i < |r| && Choices(v)[..i] == r[..i] && Spent(v[i], r[i]);
    assert !Spent(v[i], ChoiceOf(v[i])) by {
      if v[i].Threads? && First(v[i].ts, Active) < |v[i].ts| { assert v[i].ts[First(v[i].ts, Active)] == Active; }
    }
    assert Choices(v)[i] != r[i];
  }

  /** What was used up before an execution stays used up after it, and so do the choices of the execution before. */
  lemma UsedUpKept(v: seq<Node>, u: seq<Node>, r: seq<Choice>)
    requires Continues(v, u) && (UsedUp(v, r) || r == Choices(v))
    requires forall i :: 0 <= i < |v| ==> GoodNode(v[i]) && NoDuplicates(v[i])
    ensures UsedUp(u, r)
  {
    SuccessorShape(v);
    var j := |Successor(v).value| - 1;
    NextRun(v, u, j);
    AdvanceSpends(v[j]);
    AdvanceKeeps(v[j]);
    MarkedKeeps(Advance(v[j]).value, u[j]);
    hide Advance, GoodNode, ChoiceOf, Marked, Successor, Continues, NoDuplicates, Spent, Waiting;
    if r == Choices(v) {
      assert Choices(u)[..j] == r[..j] && Spent(u[j], r[j]);
    } else {
      var i :| 0 <= i < |v| && i < |r| && Choices(v)[..i] == r[..i] && Spent(v[i], r[i]);
      if i > j {
        assert r[..i][..j] == r[..j] && Choices(v)[..i][..j] == Choices(v)[..j];
        assert r[j] == r[..i][j] == Choices(v)[..i][j] == ChoiceOf(v[j]);
        assert Choices(u)[..j] == r[..j] && Spent(u[j], r[j]);
      } else {
        NextRun(v, u, i);
        if i < j { MarkedKeeps(v[i], u[i]); }
        assert Choices(u)[..i] == r[..i] && Spent(u[i], r[i]);
      }
    }
  }

  lemma {:induction false} UsedUpLater(log: seq<seq<Node>>, k: nat, m: nat)
    requires Exploration(log) && Distinct(log) && k < m < |log|
    ensures UsedUp(log[m], Choices(log[k]))
  {
    var v := log[m - 1];
    assert GoesOn(log, m - 1);
    assert forall j :: 0 <= j < |v| ==> GoodNode(v[j]) by { if m > 1 { assert GoesOn(log, m - 2); } }
    if k < m - 1 { UsedUpLater(log, k, m - 1); }
    UsedUpKept(v, log[m], Choices(log[k]));
  }

  /** Two executions never make the same choices: they part at a branch point that both reach. */
  lemma ExplorationNeverRepeats(log: seq<seq<Node>>, k: nat, m: nat)
    requires Exploration(log) && Distinct(log) && k < m < |log|
    ensures Diverge(Choices(log[k]), Choices(log[m]))
  {
    UsedUpLater(log, k, m);
    assert GoesOn(log, m - 1);
    UsedUpDiverges(log[m], Choices(log[k]));
  }

  // ----- exploration terminates -----

  function Pow(b: nat, e: nat): (r: nat)
    ensures b > 0 ==> r > 0
  {
    if e == 0 then 1 else b * Pow(b, e - 1)
  }

  function CountOpen(ts: seq<ThreadState>): (c: nat)
    ensures c <= |ts|
  {
    if ts == [] then 0 else CountOpen(ts[1..]) + (if ts[0] == Skip || ts[0] == Pending then 1 else 0)
  }

  /** The alternatives a branch point can still come to have. */
  function Digit(n: Node): nat {
    match n
    case Threads(ts) => CountOpen(ts)
    case Writes(ws) => if ws == [] then 0 else |ws| - 1
  }

  ghost predicate Small(v: seq<Node>, depth: nat, breadth: nat) {
    |v| <= depth && forall i :: 0 <= i < |v| ==> Digit(v[i]) <= breadth
  }

  /** The path as a number in base `breadth + 1`; a branch point not reached yet counts as a full one. */
  function Measure(v: seq<Node>, depth: nat, breadth: nat): nat
    requires |v| <= depth
    decreases depth
  {
    if depth == 0 then 0
    else
      (if v == [] then breadth else Digit(v[0])) * Pow(breadth + 1, depth - 1)
      + Measure(if v == [] then [] else v[1..], depth - 1, breadth)
  }

  lemma {:induction false} MeasureBound(v: seq<Node>, depth: nat, breadth: nat)
    requires Small(v, depth, breadth)
    ensures Measure(v, depth, breadth) < Pow(breadth + 1, depth)
    decreases depth
  {
    if depth > 0 {
      MeasureBound(if v == [] then [] else v[1..], depth - 1, breadth);
      Carry(if v == [] then breadth else Digit(v[0]), breadth, Pow(breadth + 1, depth - 1),
            Measure(if v == [] then [] else v[1..], depth - 1, breadth));
    }
  }

  lemma Carry(d: nat, b: nat, p: nat, m: nat)
    requires d <= b && m < p
    ensures d * p + m < (b + 1) * p
  {
    LessTimes(d, b, p);
    assert (b + 1) * p == b * p + p;
  }

  lemma LessTimes(a: nat, b: nat, p: nat)
    requires a <= b
    ensures a * p <= b * p
  {
  }

  lemma {:induction false} CountOpenUpdate(ts: seq<ThreadState>, i: nat, x: ThreadState)
    requires i < |ts|
    ensures CountOpen(ts[i := x]) + (if ts[i] == Skip || ts[i] == Pending then 1 else 0)
         == CountOpen(ts) + (if x == Skip || x == Pending then 1 else 0)
  {
    if i > 0 {
      CountOpenUpdate(ts[1..], i - 1, x);
      assert ts[i := x][1..] == ts[1..][i - 1 := x];
    } else {
      assert ts[0 := x][1..] == ts[1..];
    }
  }

  lemma AdvanceLowers(n: Node)
    requires Advance(n).Some?
    ensures Digit(Advance(n).value) < Digit(n)
  {
    if n.Threads? {
      var ts := n.ts;
      var i := First(ts, Active);
      var ts1 := if i < |ts| then ts[i := Visited] else ts;
      var j := First(ts1, Pending);
      if i < |ts| { CountOpenUpdate(ts, i, Visited); }
      CountOpenUpdate(ts1, j, Active);
    }
  }

  lemma {:induction false} MarkedCount(ts: seq<ThreadState>, us: seq<ThreadState>)
    requires Marked(Threads(ts), Threads(us))
    ensures CountOpen(us) == CountOpen(ts)
  {
    if ts != [] { MarkedCount(ts[1..], us[1..]); }
  }

  /** Each `step` that finds another path lowers the measure. */
  lemma {:induction false} StepLowers(v: seq<Node>, depth: nat, breadth: nat)
    requires Small(v, depth, breadth) && Successor(v).Some?
    ensures |Successor(v).value| <= |v| && Small(Successor(v).value, depth, breadth)
    ensures Measure(Successor(v).value, depth, breadth) < Measure(v, depth, breadth)
    decreases depth
  {
    SuccessorShape(v);
    hide Advance, Digit;
    var w := Successor(v).value;
    var rest, p := v[1..], Pow(breadth + 1, depth - 1);
    if Successor(rest).Some? {
      StepLowers(rest, depth - 1, breadth);
      assert w[1..] == Successor(rest).value;
    } else {
      assert w == [Advance(v[0]).value] && w[1..] == [];
      AdvanceLowers(v[0]);
      MeasureBound([], depth - 1, breadth);
      LessTimes(Digit(w[0]) + 1, Digit(v[0]), p);
      assert (Digit(w[0]) + 1) * p == Digit(w[0]) * p + p;
    }
    forall i | 0 <= i < |w| ensures Digit(w[i]) <= breadth {
      if i < |w| - 1 { assert w[i] == w[..|w| - 1][i] == v[i]; } else { AdvanceLowers(v[i]); }
    }
  }

  /** One execution, with the marks of its backtracking, does not raise it. */
  lemma {:induction false} RunNeverRaises(v: seq<Node>, u: seq<Node>, depth: nat, breadth: nat)
    requires |v| <= |u| && Small(u, depth, breadth) && forall i :: 0 <= i < |v| ==> Marked(v[i], u[i])
    ensures Measure(u, depth, breadth) <= Measure(v, depth, breadth)
    decreases depth
  {
    if depth > 0 {
      var p := Pow(breadth + 1, depth - 1);
      if v != [] {
        RunNeverRaises(v[1..], u[1..], depth - 1, breadth);
        if v[0].Threads? { MarkedCount(v[0].ts, u[0].ts); }
        assert Digit(u[0]) == Digit(v[0]);
      } else if u != [] {
        RunNeverRaises([], u[1..], depth - 1, breadth);
        LessTimes(Digit(u[0]), breadth, p);
      }
    }
  }

  /** At most `(breadth + 1) ^ depth` executions. */
  lemma {:induction false} ExplorationBounded(log: seq<seq<Node>>, depth: nat, breadth: nat)
    requires Exploration(log) && forall k :: 0 <= k < |log| ==> Small(log[k], depth, breadth)
    requires Small(log[|log| - 1], depth, breadth)
    ensures |log| + Measure(log[|log| - 1], depth, breadth) <= Pow(breadth + 1, depth)
  {
    var n := |log| - 1;
    if n == 0 {
      RunNeverRaises([], log[0], depth, breadth);
      MeasureBound([], depth, breadth);
    } else {
      forall k | 0 <= k < n - 1 ensures GoesOn(log[..n], k) { assert GoesOn(log, k); }
      ExplorationBounded(log[..n], depth, breadth);
      assert GoesOn(log, n - 1);
      StepLowers(log[n - 1], depth, breadth);
      RunNeverRaises(Successor(log[n - 1]).value, log[n], depth, breadth);
    }
  }
}
