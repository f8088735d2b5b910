/** The execution path kept between executions, with its vectors rewritten in place. */
module ExplorationPath {
  import opened Wrappers
  import opened PathModel

  /** An entry of `branches`: an index into `schedules` or into `writes`. */
  datatype Branch = Schedule(i: nat) | Write(i: nat)

  // ----- the three vectors as one path -----

  /** How many of the first `k` branches are schedules. */
  function SchedulesBefore(bs: seq<Branch>, k: nat): (n: nat)
    requires k <= |bs|
    ensures n <= k
  {
    if k == 0 then 0 else SchedulesBefore(bs, k - 1) + (if bs[k - 1].Schedule? then 1 else 0)
  }

  lemma {:induction false} SchedulesBeforePrefix(bs: seq<Branch>, cs: seq<Branch>, k: nat)
    requires k <= |bs| && k <= |cs| && bs[..k] == cs[..k]
    ensures SchedulesBefore(bs, k) == SchedulesBefore(cs, k)
  {
    if k > 0 {
      assert bs[k - 1] == bs[..k][k - 1] == cs[..k][k - 1];
      assert bs[..k - 1] == bs[..k][..k - 1] == cs[..k - 1];
      SchedulesBeforePrefix(bs, cs, k - 1);
    }
  }

  lemma {:induction false} SchedulesBeforeGrows(bs: seq<Branch>, j: nat, k: nat)
    requires j < k <= |bs|
    ensures SchedulesBefore(bs, j) <= SchedulesBefore(bs, k)
    ensures j - SchedulesBefore(bs, j) <= k - SchedulesBefore(bs, k)
    ensures bs[j].Schedule? ==> SchedulesBefore(bs, j) < SchedulesBefore(bs, k)
    ensures bs[j].Write? ==> j - SchedulesBefore(bs, j) < k - SchedulesBefore(bs, k)
    decreases k
  {
    if j < k - 1 { SchedulesBeforeGrows(bs, j, k - 1); }
  }

  /** Branch `k` owns the entry of its vector that the branches before it leave next. */
  predicate BranchOk(bs: seq<Branch>, ss: seq<seq<ThreadState>>, ws: seq<seq<nat>>, k: nat)
    requires k < |bs|
  {
    match bs[k]
    case Schedule(i) => i == SchedulesBefore(bs, k) < |ss|
    case Write(i) => i == k - SchedulesBefore(bs, k) < |ws|
  }

  ghost predicate WellIndexed(bs: seq<Branch>, ss: seq<seq<ThreadState>>, ws: seq<seq<nat>>) {
    && |ss| == SchedulesBefore(bs, |bs|)
    && |ws| == |bs| - |ss|
    && forall k :: 0 <= k < |bs| ==> BranchOk(bs, ss, ws, k)
  }

  function NodeAt(bs: seq<Branch>, ss: seq<seq<ThreadState>>, ws: seq<seq<nat>>, k: nat): Node
    requires k < |bs| && BranchOk(bs, ss, ws, k)
  {
    match bs[k]
    case Schedule(i) => Threads(ss[i])
    case Write(i) => Writes(ws[i])
  }

  function ViewOf(bs: seq<Branch>, ss: seq<seq<ThreadState>>, ws: seq<seq<nat>>): seq<Node>
    requires WellIndexed(bs, ss, ws)
  {
    seq(|bs|, k requires 0 <= k < |bs| && BranchOk(bs, ss, ws, k) => NodeAt(bs, ss, ws, k))
  }

  /** A new branch owns the entry pushed onto its vector. */
  lemma ViewAppended(bs: seq<Branch>, ss: seq<seq<ThreadState>>, ws: seq<seq<nat>>, n: Node)
    requires WellIndexed(bs, ss, ws)
    ensures var bs', ss', ws' := bs + [if n.Threads? then Schedule(|ss|) else Write(|ws|)],
                                 (if n.Threads? then ss + [n.ts] else ss), (if n.Writes? then ws + [n.ws] else ws);
            WellIndexed(bs', ss', ws') && ViewOf(bs', ss', ws') == ViewOf(bs, ss, ws) + [n]
  {
    var bs' := bs + [if n.Threads? then Schedule(|ss|) else Write(|ws|)];
    var ss', ws' := if n.Threads? then ss + [n.ts] else ss, if n.Writes? then ws + [n.ws] else ws;
    forall k | 0 <= k <= |bs| ensures SchedulesBefore(bs', k) == SchedulesBefore(bs, k) {
      assert bs'[..k] == bs[..k];
      SchedulesBeforePrefix(bs, bs', k);
    }
    forall k | 0 <= k < |bs'| ensures BranchOk(bs', ss', ws', k) {
      if k < |bs| { assert BranchOk(bs, ss, ws, k); }
    }
    forall k | 0 <= k < |bs| ensures NodeAt(bs', ss', ws', k) == NodeAt(bs, ss, ws, k) {
      assert BranchOk(bs, ss, ws, k) && BranchOk(bs', ss', ws', k);
    }
    assert NodeAt(bs', ss', ws', |bs|) == n;
    assert ViewOf(bs', ss', ws') == ViewOf(bs, ss, ws) + [n];
  }

  /** The last branch owns the last entry of its vector, so both can be popped. */
  lemma ViewPopped(bs: seq<Branch>, ss: seq<seq<ThreadState>>, ws: seq<seq<nat>>)
    requires WellIndexed(bs, ss, ws) && bs != []
    ensures var n := |bs| - 1;
            && bs[n].i == (if bs[n].Schedule? then |ss| - 1 else |ws| - 1)
            && (bs[n].Schedule? ==> ss != []) && (bs[n].Write? ==> ws != [])
            && var ss', ws' := (if bs[n].Schedule? then ss[..|ss| - 1] else ss),
                               (if bs[n].Write? then ws[..|ws| - 1] else ws);
            WellIndexed(bs[..n], ss', ws') && ViewOf(bs[..n], ss', ws') == ViewOf(bs, ss, ws)[..n]
  {
    var n := |bs| - 1;
    var bs' := bs[..n];
    assert BranchOk(bs, ss, ws, n);
    var ss', ws' := if bs[n].Schedule? then ss[..|ss| - 1] else ss, if bs[n].Write? then ws[..|ws| - 1] else ws;
    forall k | 0 <= k <= n ensures SchedulesBefore(bs', k) == SchedulesBefore(bs, k) {
      assert bs'[..k] == bs[..k];
      SchedulesBeforePrefix(bs, bs', k);
    }
    forall k | 0 <= k < n ensures BranchOk(bs', ss', ws', k) {
      assert BranchOk(bs, ss, ws, k);
      SchedulesBeforeGrows(bs, k, n);
    }
    forall k | 0 <= k < n ensures NodeAt(bs', ss', ws', k) == NodeAt(bs, ss, ws, k) {
      assert BranchOk(bs, ss, ws, k) && BranchOk(bs', ss', ws', k);
    }
    assert ViewOf(bs', ss', ws') == ViewOf(bs, ss, ws)[..n];
  }

  /** Rewriting the entry of branch `p` changes that branch point and no other. */
  lemma ViewUpdated(bs: seq<Branch>, ss: seq<seq<ThreadState>>, ws: seq<seq<nat>>, p: nat, n: Node)
    requires WellIndexed(bs, ss, ws) && p < |bs| && BranchOk(bs, ss, ws, p) && bs[p].Schedule? == n.Threads?
    ensures var ss', ws' := (if n.Threads? then ss[bs[p].i := n.ts] else ss),
                            (if n.Writes? then ws[bs[p].i := n.ws] else ws);
            WellIndexed(bs, ss', ws') && ViewOf(bs, ss', ws') == ViewOf(bs, ss, ws)[p := n]
  {
    var ss', ws' := if n.Threads? then ss[bs[p].i := n.ts] else ss, if n.Writes? then ws[bs[p].i := n.ws] else ws;
    forall k | 0 <= k < |bs| ensures BranchOk(bs, ss', ws', k) { assert BranchOk(bs, ss, ws, k); }
    forall k | 0 <= k < |bs| && k != p ensures NodeAt(bs, ss', ws', k) == NodeAt(bs, ss, ws, k) {
      assert BranchOk(bs, ss, ws, k);
      if k < p { SchedulesBeforeGrows(bs, k, p); } else { SchedulesBeforeGrows(bs, p, k); }
    }
    assert BranchOk(bs, ss', ws', p);
  }

  // ----- what the methods compute -----

  function Explore(x: ThreadState): ThreadState { if x == Skip then Pending else x }

  /** The threads of a schedule after `backtrack(t)`. */
  function Backtracked(ts: seq<ThreadState>, t: nat): seq<ThreadState>
    requires t < |ts|
  {
    if ts[t] != Pending then ts[t := Explore(ts[t])]
    else seq(|ts|, i requires 0 <= i < |ts| => Explore(ts[i]))
  }

  lemma BacktrackMarks(ts: seq<ThreadState>, t: nat)
    requires t < |ts|
    ensures Marked(Threads(ts), Threads(Backtracked(ts, t))) && Backtracked(ts, t)[t] != Skip
  {
  }

  /** What a backtrack of thread `t` does to entry `s`: for a thread that waits already, it puts up all the skipped. */
  lemma BacktrackEntries(ts: seq<ThreadState>, t: nat, s: nat)
    requires t < |ts| && s < |ts|
    ensures |Backtracked(ts, t)| == |ts|
    ensures ts[t] == Pending ==> Backtracked(ts, t)[s] == if ts[s] == Skip then Pending else ts[s]
    ensures ts[t] == Skip ==> Backtracked(ts, t) == ts[t := Pending]
    ensures ts[t] != Skip && ts[t] != Pending ==> Backtracked(ts, t) == ts
  {
  }

  /** `iter().find`: the first position that holds `x`. */
  method Find(ts: seq<ThreadState>, x: ThreadState) returns (i: nat)
    ensures i == First(ts, x)
  {
    i := 0;
    while i < |ts| && ts[i] != x
      invariant i <= |ts| && x !in ts[..i]
    {
      i := i + 1;
    }
    FirstUnique(ts, x, i);
  }

  lemma FirstUnique(ts: seq<ThreadState>, x: ThreadState, i: nat)
    requires i <= |ts| && x !in ts[..i] && (i < |ts| ==> ts[i] == x)
    ensures i == First(ts, x)
  {
    var j := First(ts, x);
    forall k | 0 <= k < i ensures ts[k] != x { assert ts[..i][k] == ts[k]; }
    forall k | 0 <= k < j ensures ts[k] != x { assert ts[..j][k] == ts[k]; }
  }

  class Path {
    var branches: seq<Branch>
    var pos: nat
    var schedules: seq<seq<ThreadState>>
    var writes: seq<seq<nat>>

    ghost predicate Valid()
      reads this
    {
      && WellIndexed(branches, schedules, writes) && pos <= |branches|
      && forall k :: 0 <= k < |branches| ==> ViewOf(branches, schedules, writes)[k] != Writes([])
    }

    /** The path as a value. */
    function View(): seq<Node>
      reads this
      requires Valid()
    {
      ViewOf(branches, schedules, writes)
    }

    constructor ()
      ensures Valid() && View() == [] && pos == 0
    {
      branches, pos, schedules, writes := [], 0, [], [];
    }

    /** The write to read; `None` is a panic: the entry is not a write, or there is no candidate. */
    method BranchWrite(seed: seq<nat>) returns (r: Option<nat>)
      requires Valid()
      modifies this
      ensures r.Some? <==> if old(pos) == |old(View())| then seed != [] else old(View())[old(pos)].Writes?
      ensures r.Some? ==> Valid() && pos == old(pos) + 1
      ensures r.Some? ==>
                View() == (if old(pos) == |old(View())| then old(View()) + [Writes(seed)] else old(View()))
      ensures r.Some? ==> ChoiceOf(View()[old(pos)]) == Read(r.value)
    {
      if pos == |branches| {
        ViewAppended(branches, schedules, writes, Writes(seed));
        var i := |writes|;
        writes := writes + [seed];
        branches := branches + [Write(i)];
      }
      assert BranchOk(branches, schedules, writes, pos);
      assert old(pos) < |old(branches)| ==> old(View())[pos] != Writes([]);
      match branches[pos]
      case Write(i) =>
        pos := pos + 1;
        if writes[i] == [] { return None; }
        r := Some(writes[i][0]);
      case Schedule(_) =>
        r := None;
    }

    /** The thread to schedule, if one is active; an outer `None` is a panic: the entry is not a schedule. */
    method BranchThread(seed: seq<ThreadState>) returns (r: Option<Option<nat>>)
      requires Valid()
      modifies this
      ensures r.Some? <==> old(pos) == |old(View())| || old(View())[old(pos)].Threads?
      ensures r.Some? ==> Valid() && pos == old(pos) + 1
      ensures r.Some? ==>
                View() == (if old(pos) == |old(View())| then old(View()) + [Threads(seed)] else old(View()))
      ensures r.Some? ==> ChoiceOf(View()[old(pos)]) == Run(r.value)
    {
      if pos == |branches| {
        ViewAppended(branches, schedules, writes, Threads(seed));
        var i := |schedules|;
        schedules := schedules + [seed];
        branches := branches + [Schedule(i)];
      }
      assert BranchOk(branches, schedules, writes, pos);
      assert old(pos) < |old(branches)| ==> old(View())[pos] != Writes([]);
      match branches[pos]
      case Schedule(i) =>
        pos := pos + 1;
        var t := Find(schedules[i], Active);
        r := Some(if t < |schedules[i]| then Some(t) else None);
      case Write(_) =>
        r := None;
    }

    /** `schedule_mut(index).backtrack(t)`; `false` is a panic: no such branch, not a schedule, or no such thread. */
    method Backtrack(index: nat, t: nat) returns (ok: bool)
      requires Valid()
      modifies this
      ensures Valid() && pos == old(pos)
      ensures ok <==> index < |old(View())| && old(View())[index].Threads? && t < |old(View())[index].ts|
      ensures View() == if ok then old(View())[index := Threads(Backtracked(old(View())[index].ts, t))] else old(View())
      ensures ok ==>
                var ts, us := old(View())[index].ts, View()[index].ts;
                && |View()| == |old(View())| && View()[index].Threads? && |us| == |ts|
                && (forall k :: 0 <= k < |View()| && k != index ==> View()[k] == old(View())[k])
                && (ts[t] != Pending ==>
                      && us[t] == (if ts[t] == Skip then Pending else ts[t])
                      && forall s :: 0 <= s < |ts| && s != t ==> us[s] == ts[s])
                && (ts[t] == Pending ==>
                      && Skip !in us
                      && forall s :: 0 <= s < |ts| && ts[s] != Skip ==> us[s] == ts[s])
    {
      if index >= |branches| { return false; }
      assert BranchOk(branches, schedules, writes, index);
      ghost var n := View()[index];
      if branches[index].Write? { return false; }
      var i := branches[index].i;
      if t >= |schedules[i]| { return false; }
      ok := true;
      var ts := schedules[i];
      ViewUpdated(branches, schedules, writes, index, Threads(Backtracked(ts, t)));
      if ts[t] != Pending {
        schedules := schedules[i := ts[t := Explore(ts[t])]];
      } else {
        var us := [];
        for k := 0 to |ts|
          invariant |us| == k && forall j :: 0 <= j < k ==> us[j] == Explore(ts[j])
        {
          us := us + [Explore(ts[k])];
        }
        assert us == Backtracked(ts, t);
        schedules := schedules[i := us];
      }
    }

    /** The body of the loop of `step`: the last branch takes its next alternative, or is popped. */
    method AdvanceLast() returns (advanced: bool)
      requires Valid() && branches != [] && pos == 0
      modifies this
      ensures Valid() && pos == 0
      ensures var v, n := old(View()), |old(View())| - 1;
              && (advanced <==> Advance(v[n]).Some?)
              && View() == if advanced then v[..n] + [Advance(v[n]).value] else v[..n]
    {
      hide First, SchedulesBefore;
      var last := |branches| - 1;
      ghost var v := View();
      assert BranchOk(branches, schedules, writes, last);
      ViewPopped(branches, schedules, writes);
      match branches[last]
      case Schedule(i) =>
        var ts := schedules[i];
        assert v[last] == Threads(ts);
        var a := Find(ts, Active);
        if a < |ts| { ts := ts[a := Visited]; }
        var b := Find(ts, Pending);
        if b < |ts| {
          ts := ts[b := Active];
          ViewUpdated(branches, schedules, writes, last, Threads(ts));
          schedules := schedules[i := ts];
          assert v[last := Threads(ts)] == v[..last] + [Threads(ts)];
          return true;
        }
        branches := branches[..last];
        schedules := schedules[..|schedules| - 1];
        advanced := false;
      case Write(i) =>
        assert v[last] == Writes(writes[i]) != Writes([]);
        var ws := writes[i][1..];
        if ws != [] {
          ViewUpdated(branches, schedules, writes, last, Writes(ws));
          writes := writes[i := ws];
          assert v[last := Writes(ws)] == v[..last] + [Writes(ws)];
          return true;
        }
        branches := branches[..last];
        writes := writes[..|writes| - 1];
        advanced := false;
    }

    /** Moves to the next path to explore; `false` when there is none. */
    method Step() returns (more: bool)
      requires Valid()
      modifies this
      ensures Valid() && pos == 0
      ensures more <==> Successor(old(View())).Some?
      ensures View() == if more then Successor(old(View())).value else []
    {
      pos := 0;
      while |branches| > 0
        invariant Valid() && pos == 0
        invariant Successor(View()) == Successor(old(View()))
        decreases |branches|
      {
        ghost var v := View();
        SuccessorLast(v);
        var advanced := AdvanceLast();
        if advanced { return true; }
        assert View() == v[..|v| - 1];
      }
      assert View() == [];
      more := false;
    }
  }
}
