/** Version vectors: the clocks of the simulated memory. */
module VersionVectors {

  type Clock = seq<nat>

  function Max(a: nat, b: nat): nat { if a < b then b else a }

  function Zero(n: nat): Clock { seq(n, i => 0) }

  function Join(a: Clock, b: Clock): Clock
    requires |b| <= |a|
  {
    seq(|a|, i requires 0 <= i < |a| => if i < |b| then Max(a[i], b[i]) else a[i])
  }

  function Inc(a: Clock, t: nat): Clock
    requires t < |a|
  {
    a[t := a[t] + 1]
  }

  /** Happened-before between clocks: entry by entry. */
  predicate Leq(a: Clock, b: Clock) {
    |a| == |b| && forall i :: 0 <= i < |a| ==> a[i] <= b[i]
  }

  /** `<=` as derived for the boxed slice: the first difference decides, and a proper prefix is smaller. */
  predicate LexLeq(a: Clock, b: Clock) {
    if a == [] then true
    else if b == [] then false
    else a[0] < b[0] || (a[0] == b[0] && LexLeq(a[1..], b[1..]))
  }

  /** The join is the least clock above both. */
  lemma JoinIsLeast(a: Clock, b: Clock)
    requires |a| == |b|
    ensures Leq(a, Join(a, b)) && Leq(b, Join(a, b))
    ensures forall c :: Leq(a, c) && Leq(b, c) ==> Leq(Join(a, b), c)
  {
  }

  lemma LeqTransitive(a: Clock, b: Clock, c: Clock)
    requires Leq(a, b) && Leq(b, c)
    ensures Leq(a, c)
  {
  }

  /** Happened-before implies the derived order, so an assertion on the latter cannot fail in its place. */
  lemma {:induction false} LeqImpliesLex(a: Clock, b: Clock)
    requires Leq(a, b)
    ensures LexLeq(a, b)
  {
    if a != [] { LeqImpliesLex(a[1..], b[1..]); }
  }

  /** The derived order relates any two clocks, concurrent ones too. */
  lemma {:induction false} LexTotal(a: Clock, b: Clock)
    ensures LexLeq(a, b) || LexLeq(b, a)
  {
    if a != [] && b != [] { LexTotal(a[1..], b[1..]); }
  }

  /** The first entry in which the two differ is smaller in `a`. */
  predicate SmallerFirst(a: Clock, b: Clock) {
    exists i :: 0 <= i < |a| && i < |b| && a[..i] == b[..i] && a[i] < b[i]
  }

  /** The first entry in which they differ is smaller in `a`, and some later one is larger. */
  predicate Overtaken(a: Clock, b: Clock) {
    exists i, j :: 0 <= i < j < |a| && j < |b| && a[..i] == b[..i] && a[i] < b[i] && a[j] > b[j]
  }

  lemma SamePrefix(a: Clock, b: Clock, i: nat, j: nat)
    requires j < i <= |a| && i <= |b| && a[..i] == b[..i]
    ensures a[j] == b[j]
  {
    assert a[..i][j] == b[..i][j];
  }

  lemma SmallerFirstCons(a: Clock, b: Clock)
    requires a != [] && b != []
    ensures SmallerFirst(a, b) <==> a[0] < b[0] || (a[0] == b[0] && SmallerFirst(a[1..], b[1..]))
  {
    if a[0] < b[0] { assert a[..0] == b[..0]; }
    if a[0] == b[0] && SmallerFirst(a[1..], b[1..]) {
      var i :| 0 <= i < |a[1..]| && i < |b[1..]| && a[1..][..i] == b[1..][..i] && a[1..][i] < b[1..][i];
      assert a[..i + 1] == [a[0]] + a[1..][..i] && b[..i + 1] == [b[0]] + b[1..][..i];
      assert a[i + 1] < b[i + 1];
    }
    if SmallerFirst(a, b) {
      var i :| 0 <= i < |a| && i < |b| && a[..i] == b[..i] && a[i] < b[i];
      if i > 0 {
        SamePrefix(a, b, i, 0);
        assert a[1..][..i - 1] == a[..i][1..] && b[1..][..i - 1] == b[..i][1..];
        assert a[1..][i - 1] < b[1..][i - 1];
      }
    }
  }

  /** What the derived order says of two clocks of one length. */
  lemma {:induction false} LexExact(a: Clock, b: Clock)
    requires |a| == |b|
    ensures LexLeq(a, b) <==> a == b || SmallerFirst(a, b)
  {
    if a != [] {
      SmallerFirstCons(a, b);
      LexExact(a[1..], b[1..]);
      assert a == [a[0]] + a[1..] && b == [b[0]] + b[1..];
    }
  }

  /** It accepts a clock that happened-before does not exactly if the clock is overtaken. */
  lemma LexBeyondLeq(a: Clock, b: Clock)
    requires |a| == |b|
    ensures LexLeq(a, b) && !Leq(a, b) <==> Overtaken(a, b)
  {
    LexExact(a, b);
    if LexLeq(a, b) && !Leq(a, b) {
      var i :| 0 <= i < |a| && i < |b| && a[..i] == b[..i] && a[i] < b[i];
      var j :| 0 <= j < |a| && a[j] > b[j];
      if j < i { SamePrefix(a, b, i, j); }
      assert i < j;
    }
    if Overtaken(a, b) {
      var i, j :| 0 <= i < j < |a| && j < |b| && a[..i] == b[..i] && a[i] < b[i] && a[j] > b[j];
      assert SmallerFirst(a, b);
    }
  }

  /** The vector itself: one slot per thread, updated in place. */
  class VersionVec {
    var versions: array<nat>

    ghost function Value(): Clock
      reads this, versions
    {
      versions[..]
    }

    constructor (maxThreads: nat)
      ensures fresh(versions) && Value() == Zero(maxThreads)
    {
      versions := new nat[maxThreads](_ => 0);
    }

    method Increment(t: nat)
      requires t < versions.Length
      modifies versions
      ensures Value() == Inc(old(Value()), t)
    {
      versions[t] := versions[t] + 1;
    }

    /** In place; a longer `other` indexes out of bounds. */
    method JoinWith(other: VersionVec)
      requires other.versions.Length <= versions.Length
      modifies versions
      ensures Value() == Join(old(Value()), old(other.Value()))
      ensures other.versions != versions ==> other.Value() == old(other.Value())
    {
      ghost var mine, theirs := Value(), other.Value();
      var i := 0;
      while i < other.versions.Length
        invariant i <= other.versions.Length
        invariant forall k :: 0 <= k < i ==> versions[k] == Join(mine, theirs)[k]
        invariant forall k :: i <= k < versions.Length ==> versions[k] == mine[k]
        invariant other.versions != versions ==> other.Value() == theirs
      {
        versions[i] := Max(versions[i], other.versions[i]);
        i := i + 1;
      }
    }

    /** The comparison that `PartialOrd` derives. */
    method AtMost(other: VersionVec) returns (b: bool)
      ensures b == LexLeq(Value(), other.Value())
    {
      var i := 0;
      while i < versions.Length && i < other.versions.Length && versions[i] == other.versions[i]
        invariant i <= versions.Length && i <= other.versions.Length
        invariant LexLeq(Value(), other.Value()) == LexLeq(Value()[i..], other.Value()[i..])
      {
        assert Value()[i..][1..] == Value()[i + 1..] && other.Value()[i..][1..] == other.Value()[i + 1..];
        i := i + 1;
      }
      b := i == versions.Length || (i < other.versions.Length && versions[i] < other.versions[i]);
    }
  }
}
