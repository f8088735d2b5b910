/**
 * The values in the histories: what the simulated memory holds is what plain registers would, and
 * only which of the values a load returns is its own.
 */
module MemoryValues {
  import opened Wrappers
  import opened VersionVectors
  import opened Memory
  import opened HappensBefore
  import opened MemoryEffects

  /** The values that a location has held, oldest first. */
  function Values(ws: seq<Write>): (vs: seq<nat>)
    ensures |vs| == |ws|
  {
    seq(|ws|, i requires 0 <= i < |ws| => ws[i].value)
  }

  function Registers(m: Mem): (rs: seq<seq<nat>>)
    ensures |rs| == |m.locs|
  {
    seq(|m.locs|, l requires 0 <= l < |m.locs| => Values(m.locs[l]))
  }

  /** One more value in register `l`. */
  function Push(rs: seq<seq<nat>>, l: nat, v: nat): seq<seq<nat>> {
    if l < |rs| then rs[l := rs[l] + [v]] else rs
  }

  /** The command on plain registers that remember what they held. */
  function Plain(rs: seq<seq<nat>>, c: Cmd): seq<seq<nat>> {
    match c
    case NewAtomic(v) => rs + [[v]]
    case StoreCmd(l, v, _) => Push(rs, l, v)
    case RmwCmd(l, v, _) => Push(rs, l, v)
    case CasCmd(l, current, v, _, _) =>
      if l < |rs| && rs[l] != [] && rs[l][|rs[l]| - 1] == current then Push(rs, l, v) else rs
    case _ => rs
  }

  lemma LoadValues(x: Clocks, t: nat, ws: seq<Write>, i: nat, o: Order, n: nat)
    requires Current(x, t, n) && t < n && WfWrites(ws, n) && i < |ws|
    ensures Values(LoadOp(x, t, ws, i, o, n).1) == Values(ws)
  {
    LoadEffect(x, t, ws, i, o, n);
    hide LoadOp;
  }

  lemma StoreValues(x: Clocks, t: nat, ws: seq<Write>, v: nat, o: Order, n: nat)
    requires Current(x, t, n) && t < n && WfWrites(ws, n)
    ensures Values(StoreOp(x, t, ws, v, o, n).1) == Values(ws) + [v]
  {
    StoreEffect(x, t, ws, v, o, n);
    var vs := StoreOp(x, t, ws, v, o, n).1;
    hide StoreOp;
    forall k | 0 <= k < |ws| ensures vs[k].value == ws[k].value { assert vs[..|ws|][k] == ws[k]; }
  }

  lemma RmwValues(x: Clocks, t: nat, ws: seq<Write>, v: nat, o: Order, n: nat)
    requires Current(x, t, n) && t < n && WfWrites(ws, n)
    ensures Values(RmwOp(x, t, ws, v, o, n).1) == Values(ws) + [v]
  {
    RmwEffect(x, t, ws, v, o, n);
    var vs := RmwOp(x, t, ws, v, o, n).1;
    hide RmwOp;
    forall k | 0 <= k < |ws| ensures vs[k].value == ws[k].value {
      if k < |ws| - 1 { assert vs[..|ws| - 1][k] == ws[..|ws| - 1][k]; }
    }
  }

  lemma SetRegister(m: Mem, l: nat, r: (Clocks, seq<Write>))
    requires l < |m.locs|
    ensures Registers(SetLoc(m, l, r)) == Registers(m)[l := Values(r.1)]
  {
  }

  lemma NewRegister(m: Mem, m': Mem, w: Write)
    requires m'.locs == m.locs + [[w]]
    ensures Registers(m') == Registers(m) + [[w.value]]
  {
    assert Values([w]) == [w.value];
  }

  /** Every command does to the values what it does to plain registers. */
  lemma DoValues(m: Mem, t: nat, c: Cmd)
    requires CmdOk(m, t, c)
    ensures Registers(Do(m, t, c)) == Plain(Registers(m), c)
  {
    hide LoadOp, StoreOp, RmwOp, Values, Touch;
    match c
    case NewAtomic(v) => NewRegister(m, Do(m, t, c), Write(v, Zero(m.n), Touch([], t, m.x.threads[t]), false));
    case LoadCmd(l, i, o) =>
      LoadValues(m.x, t, m.locs[l], i, o, m.n);
      SetRegister(m, l, LoadOp(m.x, t, m.locs[l], i, o, m.n));
      assert Registers(m)[l := Registers(m)[l]] == Registers(m);
    case StoreCmd(l, v, o) =>
      StoreValues(m.x, t, m.locs[l], v, o, m.n);
      SetRegister(m, l, StoreOp(m.x, t, m.locs[l], v, o, m.n));
    case RmwCmd(l, v, o) =>
      RmwValues(m.x, t, m.locs[l], v, o, m.n);
      SetRegister(m, l, RmwOp(m.x, t, m.locs[l], v, o, m.n));
    case CasCmd(_, _, _, _, _) => CasValues(m, t, c);
    case _ => assert Do(m, t, c).locs == m.locs;
  }

  lemma CasValues(m: Mem, t: nat, c: Cmd)
    requires CmdOk(m, t, c) && c.CasCmd?
    ensures Registers(Do(m, t, c)) == Plain(Registers(m), c)
  {
    hide LoadOp, RmwOp, Readable;
    var ws := m.locs[c.loc];
    assert Values(ws)[|ws| - 1] == ws[|ws| - 1].value;
    hide Values;
    if ws[|ws| - 1].value == c.current {
      RmwValues(m.x, t, ws, c.v, c.success, m.n);
      SetRegister(m, c.loc, RmwOp(m.x, t, ws, c.v, c.success, m.n));
    } else {
      LoadValues(m.x, t, ws, |ws| - 1, c.failure, m.n);
      SetRegister(m, c.loc, LoadOp(m.x, t, ws, |ws| - 1, c.failure, m.n));
      assert Registers(m)[c.loc := Registers(m)[c.loc]] == Registers(m);
    }
  }

  // ----- whole executions -----

  /** The commands that were possible when their turn came. */
  function Happened(r: Run, cmds: seq<(nat, Cmd)>): seq<Cmd>
    decreases |cmds|
  {
    if cmds == [] then []
    else
      var (t, c) := cmds[0];
      if CmdOk(r.m, t, c) then [c] + Happened(NextRun(r, t, c), cmds[1..]) else Happened(r, cmds[1..])
  }

  function PlainAll(rs: seq<seq<nat>>, cs: seq<Cmd>): seq<seq<nat>>
    decreases |cs|
  {
    if cs == [] then rs else PlainAll(Plain(rs, cs[0]), cs[1..])
  }

  /** Threads, orders and clocks make no difference to the values held. */
  lemma {:induction false} ExecuteValues(r: Run, cmds: seq<(nat, Cmd)>)
    ensures Registers(Execute(r, cmds).m) == PlainAll(Registers(r.m), Happened(r, cmds))
    decreases |cmds|
  {
    hide Do, Registers, Plain, EventOf, RelOf;
    if cmds != [] {
      var (t, c) := cmds[0];
      if CmdOk(r.m, t, c) {
        var r' := NextRun(r, t, c);
        DoValues(r.m, t, c);
        ExecuteValues(r', cmds[1..]);
        assert ([c] + Happened(r', cmds[1..]))[1..] == Happened(r', cmds[1..]);
      } else {
        ExecuteValues(r, cmds[1..]);
      }
    }
  }

  predicate WritesTo(c: Cmd, l: nat) { (c.StoreCmd? || c.RmwCmd? || c.CasCmd?) && c.loc == l }

  function Newest(rs: seq<seq<nat>>, l: nat): nat
    requires l < |rs| && rs[l] != []
  {
    rs[l][|rs[l]| - 1]
  }

  /** Nothing writes to register `l` but read-modify-writes that add one to its newest value. */
  ghost predicate OnlyAdds(rs: seq<seq<nat>>, cs: seq<Cmd>, l: nat)
    requires l < |rs| && rs[l] != []
    decreases |cs|
  {
    cs == [] || (&& (WritesTo(cs[0], l) ==> cs[0].RmwCmd? && cs[0].v == Newest(rs, l) + 1)
                 && OnlyAdds(Plain(rs, cs[0]), cs[1..], l))
  }

  function Count(cs: seq<Cmd>, l: nat): nat
    decreases |cs|
  {
    if cs == [] then 0 else (if WritesTo(cs[0], l) then 1 else 0) + Count(cs[1..], l)
  }

  lemma {:induction false} AddsCount(rs: seq<seq<nat>>, cs: seq<Cmd>, l: nat)
    requires l < |rs| && rs[l] != [] && OnlyAdds(rs, cs, l)
    ensures var rs' := PlainAll(rs, cs);
            && l < |rs'| && |rs'[l]| == |rs[l]| + Count(cs, l) && rs[l] <= rs'[l]
            && Newest(rs', l) == Newest(rs, l) + Count(cs, l)
    decreases |cs|
  {
    if cs != [] { AddsCount(Plain(rs, cs[0]), cs[1..], l); }
  }

  /** A counter that every thread only adds one to has lost no addition, whatever the orders and the schedule. */
  lemma CounterExact(r: Run, cmds: seq<(nat, Cmd)>, l: nat)
    requires l < |r.m.locs| && r.m.locs[l] != [] && OnlyAdds(Registers(r.m), Happened(r, cmds), l)
    ensures var ws, n := r.m.locs[l], Count(Happened(r, cmds), l);
            && l < |Execute(r, cmds).m.locs|
            && var ws' := Execute(r, cmds).m.locs[l];
               |ws'| == |ws| + n && ws'[|ws'| - 1].value == ws[|ws| - 1].value + n
  {
    ExecuteValues(r, cmds);
    AddsCount(Registers(r.m), Happened(r, cmds), l);
    var r' := Execute(r, cmds);
    hide Execute, Happened, PlainAll, OnlyAdds, Count;
    assert Registers(r.m)[l] == Values(r.m.locs[l]) && Registers(r'.m)[l] == Values(r'.m.locs[l]);
  }
}
