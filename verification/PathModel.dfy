/**
 * The checker's exploration path as a value: the branches of one execution, in order, each with
 * the alternatives that are still to be explored.  What the class `Path` does to its vectors
 * is stated with the functions of this module, and what exploration promises is proved here.
 */
module PathModel {
  import opened Wrappers

  datatype ThreadState = Disabled | Skip | Pending | Active | Visited

  /** One branch point: the states of the threads, or the writes a load may still read (current one first). */
  datatype Node = Threads(ts: seq<ThreadState>) | Writes(ws: seq<nat>)

  /** What an execution was told at a branch point. */
  datatype Choice = Run(thread: Option<nat>) | Read(w: nat)

  /** The first position of `x`, or the length. */
  function First(ts: seq<ThreadState>, x: ThreadState): (i: nat)
    ensures i <= |ts| && x !in ts[..i] && (i < |ts| ==> ts[i] == x)
  {
    if ts == [] then 0 else if ts[0] == x then 0
    else
      var i := First(ts[1..], x);
      assert ts[..i + 1] == [ts[0]] + ts[1..][..i];
      i + 1
  }

  /** The choice a branch point stands for now. */
  function ChoiceOf(n: Node): Choice {
    match n
    case Threads(ts) => var i := First(ts, Active); Run(if i < |ts| then Some(i) else None)
    case Writes(ws) => Read(if ws == [] then 0 else ws[0])
  }

  function Choices(v: seq<Node>): (q: seq<Choice>)
    ensures |q| == |v|
  {
    seq(|v|, i requires 0 <= i < |v| => ChoiceOf(v[i]))
  }

  /** The branch point moved to its next alternative, if one is waiting. */
  function Advance(n: Node): Option<Node> {
    match n
    case Threads(ts) =>
      var i := First(ts, Active);
      var ts1 := if i < |ts| then ts[i := Visited] else ts;
      var j := First(ts1, Pending);
      if j < |ts| then Some(Threads(ts1[j := Active])) else None
    case Writes(ws) => if |ws| <= 1 then None else Some(Writes(ws[1..]))
  }

  /** Where the next execution starts: the deepest branch point that can be advanced is, and ends the path. */
  function Successor(v: seq<Node>): Option<seq<Node>> {
    if v == [] then None
    else
      match Successor(v[1..])
      case Some(u) => Some([v[0]] + u)
      case None =>
        match Advance(v[0])
        case Some(n) => Some([n])
        case None => None
  }

  lemma {:induction false} SuccessorLast(v: seq<Node>)
    requires v != []
    ensures var last := Advance(v[|v| - 1]);
            Successor(v) == if last.Some? then Some(v[..|v| - 1] + [last.value]) else Successor(v[..|v| - 1])
  {
    if |v| > 1 {
      SuccessorLast(v[1..]);
      assert v[1..][..|v| - 2] == v[..|v| - 1][1..];
      var last := Advance(v[|v| - 1]);
      if last.Some? {
        assert [v[0]] + (v[1..][..|v| - 2] + [last.value]) == v[..|v| - 1] + [last.value];
      }
    } else {
      assert v[..0] == [] && Successor(v[1..]) == None;
      if Advance(v[0]).Some? { assert v[..0] + [Advance(v[0]).value] == [Advance(v[0]).value]; }
    }
  }

  /** The successor keeps a proper prefix of the path and advances the node after it; nothing deeper could advance. */
  lemma {:induction false} SuccessorShape(v: seq<Node>)
    ensures var u := Successor(v);
            if u.Some? then
              && 1 <= |u.value| <= |v|
              && var j := |u.value| - 1;
              && u.value[..j] == v[..j] && Advance(v[j]) == Some(u.value[j])
              && forall i :: j < i < |v| ==> Advance(v[i]) == None
            else forall i :: 0 <= i < |v| ==> Advance(v[i]) == None
  {
    hide Advance;
    if v != [] {
      SuccessorLast(v);
      hide Successor;
      var w := v[..|v| - 1];
      if Advance(v[|v| - 1]) == None {
        SuccessorShape(w);
        var u := Successor(w);
        if u.Some? { assert w[..|u.value| - 1] == v[..|u.value| - 1]; }
      }
    }
  }

  // ----- what the alternatives of a branch point are -----

  /** A branch point as `Execution::schedule` and `pick_write` seed and change it. */
  predicate GoodNode(n: Node) {
    match n
    case Threads(ts) =>
      && (forall i, j :: 0 <= i < j < |ts| ==> !(ts[i] == Active && ts[j] == Active))
      && (Active !in ts ==> forall i :: 0 <= i < |ts| ==> ts[i] == Disabled)
    case Writes(ws) => ws != []
  }

  /** Waiting to be explored at this branch point. */
  predicate Waiting(n: Node, c: Choice) {
    match (n, c)
    case (Threads(ts), Run(Some(t))) => t < |ts| && ts[t] == Pending
    case (Writes(ws), Read(w)) => |ws| >= 1 && w in ws[1..]
    case _ => false
  }

  /** Recorded at this branch point: being explored now, or waiting. */
  predicate Offered(n: Node, c: Choice) { c == ChoiceOf(n) || Waiting(n, c) }

  /** Explored before at this branch point: never to be chosen here again. */
  predicate Spent(n: Node, c: Choice) {
    match (n, c)
    case (Threads(ts), Run(Some(t))) => t < |ts| && ts[t] == Visited
    case (Writes(ws), Read(w)) => w !in ws
    case _ => false
  }

  /** What one execution may do to a branch point that is already there: `backtrack` turns `Skip` into `Pending`. */
  predicate Marked(n: Node, m: Node) {
    match (n, m)
    case (Threads(ts), Threads(us)) =>
      |us| == |ts| && forall t :: 0 <= t < |ts| ==> us[t] == ts[t] || (ts[t] == Skip && us[t] == Pending)
    case (Writes(ws), Writes(xs)) => xs == ws
    case _ => false
  }

  lemma MarkedKeeps(n: Node, m: Node)
    requires Marked(n, m) && GoodNode(n)
    ensures GoodNode(m) && ChoiceOf(m) == ChoiceOf(n)
    ensures forall c :: Waiting(n, c) ==> Waiting(m, c)
    ensures forall c :: Spent(n, c) ==> Spent(m, c)
  {
    if n.Threads? {
      var i, k := First(n.ts, Active), First(m.ts, Active);
      if i < |n.ts| { assert m.ts[i] == Active; }
      if k < |m.ts| { assert n.ts[k] == Active; }
      forall c | Waiting(n, c) ensures Waiting(m, c) { assert m.ts[c.thread.value] == Pending; }
      forall c | Spent(n, c) ensures Spent(m, c) { assert m.ts[c.thread.value] == Visited; }
    }
  }

  /** `n` is the seeded branch point `s` some time later. */
  predicate Shape(s: Node, n: Node) {
    match (s, n)
    case (Threads(ts), Threads(us)) =>
      |us| == |ts| && forall t :: 0 <= t < |ts| ==> (us[t] == Disabled <==> ts[t] == Disabled)
    case (Writes(ws), Writes(xs)) => |xs| <= |ws| && ws[|ws| - |xs|..] == xs
    case _ => false
  }

  predicate NoDuplicates(n: Node) {
    n.Writes? ==> forall i, j :: 0 <= i < j < |n.ws| ==> n.ws[i] != n.ws[j]
  }

  /** The two entries that an advance changes: the active thread becomes visited, the first pending one active. */
  lemma AdvanceThreads(ts: seq<ThreadState>) returns (i: nat, j: nat)
    requires GoodNode(Threads(ts)) && Advance(Threads(ts)).Some?
    ensures i < |ts| && j < |ts| && i != j && ts[i] == Active && ts[j] == Pending
    ensures Advance(Threads(ts)).value == Threads(ts[i := Visited][j := Active])
    ensures ChoiceOf(Threads(ts)) == Run(Some(i)) && ChoiceOf(Threads(ts[i := Visited][j := Active])) == Run(Some(j))
  {
    i := First(ts, Active);
    var ts1 := if i < |ts| then ts[i := Visited] else ts;
    j := First(ts1, Pending);
    assert ts[j] == Pending;
    assert i < |ts|;
    var us := ts1[j := Active];
    assert us[j] == Active;
    var k := First(us, Active);
    assert us[k] == Active;
    assert k == j;
  }

  /** Entry by entry: the active thread becomes visited, the first one waiting active, and no other changes. */
  lemma AdvanceExact(ts: seq<ThreadState>, k: nat)
    requires GoodNode(Threads(ts)) && k < |ts|
    ensures Advance(Threads(ts)).Some? <==> Pending in ts
    ensures Advance(Threads(ts)).Some? ==>
              var n := Advance(Threads(ts)).value;
              && n.Threads? && |n.ts| == |ts|
              && n.ts[k] == if ts[k] == Pending && Pending !in ts[..k] then Active
                            else if ts[k] == Active then Visited else ts[k]
  {
    var i := First(ts, Active);
    var ts1 := if i < |ts| then ts[i := Visited] else ts;
    var j := First(ts1, Pending);
    forall l | 0 <= l < |ts| ensures ts1[l] == Pending <==> ts[l] == Pending {}
    if j == |ts| {
      assert ts1[..j] == ts1;
    } else {
      assert ts[j] == Pending;
      forall l | 0 <= l < j ensures ts[l] != Pending { assert ts1[..j][l] == ts1[l]; }
      if k > j { assert ts[..k][j] == Pending; }
    }
  }

  lemma AdvancedGood(ts: seq<ThreadState>, i: nat, j: nat)
    requires GoodNode(Threads(ts)) && i < |ts| && j < |ts| && i != j && ts[i] == Active && ts[j] == Pending
    ensures GoodNode(Threads(ts[i := Visited][j := Active]))
  {
    assert ts[i := Visited][j := Active][j] == Active;
  }

  lemma AdvanceWaits(n: Node, c: Choice)
    requires GoodNode(n) && Advance(n).Some? && Waiting(n, c)
    ensures c == ChoiceOf(Advance(n).value) || Waiting(Advance(n).value, c)
  {
    if n.Threads? {
      var i, j := AdvanceThreads(n.ts);
      hide First, Advance, ChoiceOf, GoodNode;
      var t := c.thread.value;
      assert t != j ==> n.ts[i := Visited][j := Active][t] == Pending;
    } else {
      hide GoodNode;
      var k :| 1 <= k < |n.ws| && n.ws[k] == c.w;
      if k > 1 { assert n.ws[1..][1..][k - 2] == c.w; }
    }
  }

  lemma AdvanceKeeps(n: Node)
    requires GoodNode(n) && Advance(n).Some?
    ensures var m := Advance(n).value;
            && GoodNode(m) && Waiting(n, ChoiceOf(m))
            && forall c :: Waiting(n, c) ==> c == ChoiceOf(m) || Waiting(m, c)
  {
    var m := Advance(n).value;
    forall c | Waiting(n, c) ensures c == ChoiceOf(m) || Waiting(m, c) { AdvanceWaits(n, c); }
    if n.Threads? {
      var i, j := AdvanceThreads(n.ts);
      AdvancedGood(n.ts, i, j);
      hide First, Advance, ChoiceOf, GoodNode;
      assert Waiting(n, ChoiceOf(m));
    } else {
      assert n.ws[1..][0] == n.ws[1];
    }
    hide Waiting;
  }

  lemma AdvanceSpends(n: Node)
    requires GoodNode(n) && NoDuplicates(n) && Advance(n).Some?
    ensures var m := Advance(n).value;
            && NoDuplicates(m) && Spent(m, ChoiceOf(n)) && !Spent(m, ChoiceOf(m))
            && forall c :: Spent(n, c) ==> Spent(m, c)
  {
    if n.Threads? {
      ThreadsSpent(n.ts);
    } else {
      hide GoodNode, First;
    }
    hide Advance, ChoiceOf, GoodNode;
  }

  lemma ThreadsSpent(ts: seq<ThreadState>)
    requires GoodNode(Threads(ts)) && Advance(Threads(ts)).Some?
    ensures var m := Advance(Threads(ts)).value;
            && m.Threads? && Spent(m, ChoiceOf(Threads(ts))) && !Spent(m, ChoiceOf(m))
            && forall c :: Spent(Threads(ts), c) ==> Spent(m, c)
  {
    var i, j := AdvanceThreads(ts);
    hide First, Advance, ChoiceOf, GoodNode;
    var us := ts[i := Visited][j := Active];
    forall c | Spent(Threads(ts), c) ensures Spent(Threads(us), c) {
      assert us[c.thread.value] == Visited;
    }
  }
}
